/** The remote players drawn on the map, reconciled with every
    `playersData` broadcast, and the tweens that glide them to their
    broadcast positions. */
module GamePlayers {
  import opened Protocol
  import opened GamePlayer

  /** A player's identifier and sprite position at one moment. */
  datatype Spot = Spot(id: SocketId, x: real, y: real)

  /** Where the players on the map currently are. */
  function Spots(ps: seq<Player>): (r: seq<Spot>)
    reads ps`x, ps`y
    ensures |r| == |ps|
    ensures forall i :: 0 <= i < |ps| ==> r[i] == Spot(ps[i].id, ps[i].x, ps[i].y)
  {
    if ps == [] then [] else [Spot(ps[0].id, ps[0].x, ps[0].y)] + Spots(ps[1..])
  }

  function IdSet(w: seq<Spot>): set<SocketId> {
    set s | s in w :: s.id
  }

  function DataIds(data: seq<PlayerRecord>): set<SocketId> {
    set e | e in data :: e.id
  }

  predicate Distinct(w: seq<Spot>) {
    forall i, j :: 0 <= i < j < |w| ==> w[i].id != w[j].id
  }

  /** `find` by identifier: the first spot of that player. */
  function FindSpot(w: seq<Spot>, id: SocketId): (r: Option<nat>)
    ensures r.Some? ==> r.value < |w| && w[r.value].id == id
    ensures r.Some? ==> forall j :: 0 <= j < r.value ==> w[j].id != id
    ensures r.None? <==> id !in IdSet(w)
  {
    if w == [] then None
    else if w[0].id == id then Some(0)
    else
      match FindSpot(w[1..], id)
      case None =>
        assert forall s :: s in w ==> s == w[0] || s in w[1..];
        None
      case Some(k) => Some(k + 1)
  }

  function Abs(v: real): real {
    if v < 0.0 then -v else v
  }

  datatype Axis = Horizontal | Vertical

  /** A tween of one coordinate, with the animation played on start and, for
      a horizontal tween, the y target handed to its completion. */
  datatype Tween = Tween(id: SocketId, axis: Axis, from: real, to: real, duration: real, anim: Animation, thenY: Option<real>)

  /** `xTween` / `yTween`: 10 ms per pixel, animated in the direction of travel. */
  function TweenTo(id: SocketId, axis: Axis, from: real, to: real, thenY: Option<real>): (t: Tween)
    ensures t.id == id && t.axis == axis && t.from == from && t.to == to && t.thenY == thenY
    ensures t.duration >= 0.0 && (t.duration == 0.0 <==> from == to)
    ensures t.duration == 10.0 * (if from < to then to - from else from - to)
    ensures axis == Horizontal ==> (t.anim == Right <==> from < to) && (t.anim == Left <==> from >= to)
    ensures axis == Vertical ==> (t.anim == Down <==> from < to) && (t.anim == Up <==> from >= to)
  {
    var anim := match axis
      case Horizontal => if from < to then Right else Left
      case Vertical => if from < to then Down else Up;
    Tween(id, axis, from, to, Abs(from - to) * 10.0, anim, thenY)
  }

  /** JavaScript truthiness of an optional number. */
  predicate Truthy(v: Option<real>) {
    v.Some? && v.value != 0.0
  }

  /** The tween a known player gets for a broadcast entry. */
  function ChooseTween(cur: Spot, e: PlayerRecord): (r: Option<Tween>)
    ensures r.None? <==> cur.x == e.x && cur.y == e.y
    ensures r.Some? ==> r.value.id == cur.id
    ensures r.Some? && r.value.axis == Horizontal ==> r.value.from == cur.x && r.value.to == e.x
    ensures r.Some? && r.value.axis == Vertical ==> r.value.from == cur.y && r.value.to == e.y && r.value.thenY == None
    ensures cur.x != e.x && cur.y != e.y ==> r.Some? && r.value.axis == Horizontal && r.value.thenY == Some(e.y)
    ensures cur.x != e.x && cur.y == e.y ==> r.Some? && r.value.axis == Horizontal && r.value.thenY == None
    ensures cur.x == e.x && cur.y != e.y ==> r.Some? && r.value.axis == Vertical
  {
    if cur.x != e.x && cur.y != e.y then Some(TweenTo(cur.id, Horizontal, cur.x, e.x, Some(e.y)))
    else if cur.x != e.x then Some(TweenTo(cur.id, Horizontal, cur.x, e.x, None))
    else if cur.y != e.y then Some(TweenTo(cur.id, Vertical, cur.y, e.y, None))
    else None
  }

  /** Where a tween, and the y tween its completion chains, leave the sprite. */
  function Landing(cur: Spot, t: Tween): (real, real) {
    match t.axis
    case Horizontal => (t.to, if Truthy(t.thenY) then t.thenY.value else cur.y)
    case Vertical => (cur.x, t.to)
  }

  /** A chosen tween brings the player to its broadcast position, except
      when both coordinates change and the target y is 0: the chained y
      tween is then skipped. */
  lemma TweenLandsOnBroadcast(cur: Spot, e: PlayerRecord)
    requires ChooseTween(cur, e).Some?
    ensures Landing(cur, ChooseTween(cur, e).value) == (e.x, e.y) <==>
              !(cur.x != e.x && cur.y != e.y && e.y == 0.0)
  {
  }

  /** One broadcast entry absorbed: a known player may get a tween, an
      unknown one is created at the broadcast position. */
  function Absorb(w: seq<Spot>, log: seq<Tween>, e: PlayerRecord): (r: (seq<Spot>, seq<Tween>))
    ensures e.id !in IdSet(w) ==> r.0 == w + [Spot(e.id, e.x, e.y)] && r.1 == log
    ensures e.id in IdSet(w) ==> r.0 == w
    ensures e.id in IdSet(w) ==>
              r.1 == log || (|r.1| == |log| + 1 && r.1[..|log|] == log && r.1[|log|].id == e.id)
  {
    match FindSpot(w, e.id)
    case Some(k) => (w, match ChooseTween(w[k], e) case Some(t) => log + [t] case None => log)
    case None => (w + [Spot(e.id, e.x, e.y)], log)
  }

  /** The `map` over a broadcast: the players afterwards and the tween log
      with the tweens it started appended. */
  function Plan(w: seq<Spot>, log: seq<Tween>, data: seq<PlayerRecord>): (r: (seq<Spot>, seq<Tween>))
    ensures |r.0| >= |w| && r.0[..|w|] == w
    decreases |data|
  {
    if data == [] then (w, log)
    else
      var p := Plan(w, log, data[..|data| - 1]);
      Absorb(p.0, p.1, data[|data| - 1])
  }

  /** Absorbing an entry adds its identifier, creating it at most once. */
  lemma AbsorbAddsOnce(p: seq<Spot>, q: seq<Tween>, e: PlayerRecord)
    ensures Absorb(p, q, e).0 == p || (e.id !in IdSet(p) && Absorb(p, q, e).0 == p + [Spot(e.id, e.x, e.y)])
    ensures IdSet(Absorb(p, q, e).0) == IdSet(p) + {e.id}
  {
    if FindSpot(p, e.id).None? {
      var r := p + [Spot(e.id, e.x, e.y)];
      assert forall s :: s in r <==> s in p || s == Spot(e.id, e.x, e.y);
    } else {
      assert p[FindSpot(p, e.id).value] in p;
    }
  }

  lemma AppendKeepsDistinct(p: seq<Spot>, s: Spot)
    requires Distinct(p) && s.id !in IdSet(p)
    ensures Distinct(p + [s])
  {
    var r := p + [s];
    forall i, j | 0 <= i < j < |r| ensures r[i].id != r[j].id {
      if j == |p| {
        assert p[i] in p;
      }
    }
  }

  lemma PlanStep(w: seq<Spot>, log: seq<Tween>, data: seq<PlayerRecord>, i: nat)
    requires i < |data|
    ensures Plan(w, log, data[..i + 1]) == Absorb(Plan(w, log, data[..i]).0, Plan(w, log, data[..i]).1, data[i])
  {
    assert data[..i + 1][..i] == data[..i];
  }

  /** Every broadcast player ends up on the map. */
  lemma {:induction false} PlanCoversBroadcast(w: seq<Spot>, log: seq<Tween>, data: seq<PlayerRecord>)
    ensures IdSet(Plan(w, log, data).0) == IdSet(w) + DataIds(data)
    decreases |data|
  {
    if data != [] {
      var front := data[..|data| - 1];
      var e := data[|data| - 1];
      PlanCoversBroadcast(w, log, front);
      AbsorbAddsOnce(Plan(w, log, front).0, Plan(w, log, front).1, e);
      DataIdsSnoc(front, e);
      assert data == front + [e];
    }
  }

  /** No identifier is created twice. */
  lemma {:induction false} PlanKeepsDistinct(w: seq<Spot>, log: seq<Tween>, data: seq<PlayerRecord>)
    requires Distinct(w)
    ensures Distinct(Plan(w, log, data).0)
    decreases |data|
  {
    if data != [] {
      var front := data[..|data| - 1];
      var e := data[|data| - 1];
      PlanKeepsDistinct(w, log, front);
      var p := Plan(w, log, front).0;
      var q := Plan(w, log, front).1;
      AbsorbAddsOnce(p, q, e);
      if Absorb(p, q, e).0 != p {
        AppendKeepsDistinct(p, Spot(e.id, e.x, e.y));
      }
    }
  }

  lemma DataIdsSnoc(front: seq<PlayerRecord>, e: PlayerRecord)
    ensures DataIds(front + [e]) == DataIds(front) + {e.id}
  {
    var d := front + [e];
    assert forall r :: r in d <==> r in front || r == e;
  }

  /** Each newcomer is created at the position of a broadcast entry. */
  lemma {:induction false} PlanCreatesAtBroadcast(w: seq<Spot>, log: seq<Tween>, data: seq<PlayerRecord>)
    ensures forall j :: |w| <= j < |Plan(w, log, data).0| ==>
              exists i :: 0 <= i < |data| && Plan(w, log, data).0[j] == Spot(data[i].id, data[i].x, data[i].y)
    decreases |data|
  {
    if data != [] {
      var front := data[..|data| - 1];
      var e := data[|data| - 1];
      PlanCreatesAtBroadcast(w, log, front);
      var p := Plan(w, log, front).0;
      var q := Plan(w, log, front).1;
      var r := Plan(w, log, data).0;
      assert r == Absorb(p, q, e).0;
      AbsorbAddsOnce(p, q, e);
      forall j | |w| <= j < |r|
        ensures exists i :: 0 <= i < |data| && r[j] == Spot(data[i].id, data[i].x, data[i].y)
      {
        if j < |p| {
          var i :| 0 <= i < |front| && p[j] == Spot(front[i].id, front[i].x, front[i].y);
          assert r[j] == p[j] && data[i] == front[i];
        } else {
          assert r[j] == Spot(data[|data| - 1].id, data[|data| - 1].x, data[|data| - 1].y);
        }
      }
    } else {
      assert |Plan(w, log, data).0| == |w|;
    }
  }

  /** The `filter` of `removeDisconnectedPlayers`: keep those broadcast. */
  function KeepPresent(w: seq<Spot>, data: seq<PlayerRecord>): (r: seq<Spot>)
    ensures |r| <= |w|
    decreases |w|
  {
    if w == [] then []
    else KeepPresent(w[..|w| - 1], data) + (if HasId(data, w[|w| - 1].id) then [w[|w| - 1]] else [])
  }

  /** The filter keeps exactly the spots of broadcast players, and keeps
      identifiers distinct. */
  lemma {:induction false} KeepPresentFilters(w: seq<Spot>, data: seq<PlayerRecord>)
    ensures forall s :: s in KeepPresent(w, data) <==> s in w && HasId(data, s.id)
    ensures Distinct(w) ==> Distinct(KeepPresent(w, data))
    decreases |w|
  {
    if w != [] {
      var front := w[..|w| - 1];
      var last := w[|w| - 1];
      KeepPresentFilters(front, data);
      assert w == front + [last];
      if Distinct(w) {
        forall s | s in KeepPresent(front, data) ensures s.id != last.id {
          var i :| 0 <= i < |w| - 1 && w[i] == s;
        }
        if HasId(data, last.id) {
          AppendKeepsDistinct(KeepPresent(front, data), last);
        }
      }
    }
  }

  lemma KeepPresentStep(w: seq<Spot>, s: Spot, data: seq<PlayerRecord>)
    ensures KeepPresent(w + [s], data) == KeepPresent(w, data) + (if HasId(data, s.id) then [s] else [])
  {
    assert (w + [s])[..|w|] == w;
  }

  lemma {:induction false} KeepPresentAppends(a: seq<Spot>, b: seq<Spot>, data: seq<PlayerRecord>)
    ensures KeepPresent(a + b, data) == KeepPresent(a, data) + KeepPresent(b, data)
    decreases |b|
  {
    if b == [] {
      assert a + b == a;
    } else {
      var b' := b[..|b| - 1];
      assert (a + b)[..|a + b| - 1] == a + b';
      assert (a + b)[|a + b| - 1] == b[|b| - 1];
      KeepPresentAppends(a, b', data);
    }
  }

  /** After reconciliation the map shows exactly the broadcast players, each
      once. */
  lemma ReconcileMatchesBroadcast(w: seq<Spot>, log: seq<Tween>, data: seq<PlayerRecord>)
    requires Distinct(w)
    ensures IdSet(KeepPresent(Plan(w, log, data).0, data)) == DataIds(data)
    ensures Distinct(KeepPresent(Plan(w, log, data).0, data))
  {
    PlanCoversBroadcast(w, log, data);
    PlanKeepsDistinct(w, log, data);
    KeepBroadcastIds(Plan(w, log, data).0, data);
    KeepPresentFilters(Plan(w, log, data).0, data);
  }

  /** Reconciliation keeps the survivors in their old order and appends the
      newcomers in broadcast order. */
  lemma ReconcileKeepsOrder(w: seq<Spot>, log: seq<Tween>, data: seq<PlayerRecord>)
    ensures KeepPresent(Plan(w, log, data).0, data) == KeepPresent(w, data) + Plan(w, log, data).0[|w|..]
  {
    var p := Plan(w, log, data).0;
    var newcomers := p[|w|..];
    assert p == w + newcomers;
    KeepPresentAppends(w, newcomers, data);
    NewcomersAreBroadcast(w, log, data);
    KeepAllPresent(newcomers, data);
  }

  lemma NewcomersAreBroadcast(w: seq<Spot>, log: seq<Tween>, data: seq<PlayerRecord>)
    ensures forall j :: |w| <= j < |Plan(w, log, data).0| ==> HasId(data, Plan(w, log, data).0[j].id)
  {
    var p := Plan(w, log, data).0;
    PlanCreatesAtBroadcast(w, log, data);
    forall j | |w| <= j < |p| ensures HasId(data, p[j].id) {
      var i :| 0 <= i < |data| && p[j] == Spot(data[i].id, data[i].x, data[i].y);
    }
  }

  /** Filtering a map that shows every broadcast player leaves exactly the
      broadcast identifiers. */
  lemma KeepBroadcastIds(p: seq<Spot>, data: seq<PlayerRecord>)
    requires DataIds(data) <= IdSet(p)
    ensures IdSet(KeepPresent(p, data)) == DataIds(data)
  {
    var r := KeepPresent(p, data);
    KeepPresentFilters(p, data);
    forall id | id in DataIds(data) ensures id in IdSet(r) {
      var e :| e in data && e.id == id;
      var k :| 0 <= k < |data| && data[k] == e;
      var s :| s in p && s.id == id;
      assert HasId(data, s.id);
      assert s in r;
    }
    forall id | id in IdSet(r) ensures id in DataIds(data) {
      var s :| s in r && s.id == id;
      var k :| 0 <= k < |data| && data[k].id == id;
      assert data[k] in data;
    }
  }

  lemma {:induction false} KeepAllPresent(w: seq<Spot>, data: seq<PlayerRecord>)
    requires forall j :: 0 <= j < |w| ==> HasId(data, w[j].id)
    ensures KeepPresent(w, data) == w
    decreases |w|
  {
    if w != [] {
      KeepAllPresent(w[..|w| - 1], data);
      assert w == w[..|w| - 1] + [w[|w| - 1]];
    }
  }

  /** The `filter` on the players themselves. */
  function KeepPlayers(ps: seq<Player>, data: seq<PlayerRecord>): (r: seq<Player>)
    ensures |r| <= |ps|
    ensures forall i :: 0 <= i < |r| ==> r[i] in ps && HasId(data, r[i].id)
    decreases |ps|
  {
    if ps == [] then []
    else KeepPlayers(ps[..|ps| - 1], data) + (if HasId(data, ps[|ps| - 1].id) then [ps[|ps| - 1]] else [])
  }

  lemma {:induction false} SpotsOfKept(ps: seq<Player>, data: seq<PlayerRecord>)
    ensures Spots(KeepPlayers(ps, data)) == KeepPresent(Spots(ps), data)
    decreases |ps|
  {
    if ps != [] {
      var front := ps[..|ps| - 1];
      var p := ps[|ps| - 1];
      SpotsOfKept(front, data);
      assert ps == front + [p];
      SpotsAppend(front, p);
      KeepPresentStep(Spots(front), Spot(p.id, p.x, p.y), data);
      if HasId(data, p.id) {
        SpotsAppend(KeepPlayers(front, data), p);
      }
    }
  }

  lemma SpotsAppend(ps: seq<Player>, p: Player)
    ensures Spots(ps + [p]) == Spots(ps) + [Spot(p.id, p.x, p.y)]
  {
    assert Spots(ps + [p])[..|ps|] == Spots(ps);
  }

  lemma PrefixGrows<T>(s: seq<T>, i: nat)
    requires i < |s|
    ensures s[..i + 1] == s[..i] + [s[i]]
  {
  }

  lemma ConcatAssoc<T>(a: seq<T>, b: seq<T>, c: seq<T>)
    ensures (a + b) + c == a + (b + c)
  {
  }

  class Players {
    /** `socket.id` of the local player. */
    const selfId: SocketId
    var players: seq<Player>
    /** Every tween started, in start order. */
    var tweens: seq<Tween>

    /** No player twice, and never the local one. */
    ghost predicate Valid()
      reads this
    {
      (forall i, j :: 0 <= i < j < |players| ==> players[i].id != players[j].id) &&
      (forall i :: 0 <= i < |players| ==> players[i].id != selfId)
    }

    constructor (selfId: SocketId)
      ensures this.selfId == selfId && players == [] && tweens == []
      ensures Valid()
    {
      this.selfId := selfId;
      players, tweens := [], [];
    }

    /** `playersData`: the broadcast without the local player, reconciled. */
    method OnPlayersData(data: seq<PlayerRecord>)
      requires Valid()
      modifies this`players, this`tweens, players`destroyed
      ensures Valid()
      ensures IdSet(Spots(players)) == DataIds(WithoutId(data, selfId))
      ensures Spots(players) ==
                KeepPresent(Plan(old(Spots(players)), old(tweens), WithoutId(data, selfId)).0, WithoutId(data, selfId))
      ensures tweens == Plan(old(Spots(players)), old(tweens), WithoutId(data, selfId)).1
      ensures forall j :: 0 <= j < |old(players)| && !HasId(WithoutId(data, selfId), old(players)[j].id) ==>
                old(players)[j].destroyed
      ensures forall j :: 0 <= j < |old(players)| && HasId(WithoutId(data, selfId), old(players)[j].id) ==>
                old(players)[j].destroyed == old(players[j].destroyed)
    {
      var others := WithoutId(data, selfId);
      ghost var w := Spots(players);
      ghost var log := tweens;
      assert Distinct(w);
      UpdatePlayersPosition(others);
      ReconcileMatchesBroadcast(w, log, others);
      var r := Spots(players);
      forall i | 0 <= i < |players| ensures players[i].id != selfId {
        assert r[i] in r;
        assert players[i].id in DataIds(others);
      }
      forall i, j | 0 <= i < j < |players| ensures players[i].id != players[j].id {
        assert r[i].id != r[j].id;
      }
    }

    /** `updatePlayersPosition`: absorb every entry, then drop and destroy
        the players the broadcast no longer lists. */
    method UpdatePlayersPosition(data: seq<PlayerRecord>)
      modifies this`players, this`tweens, players`destroyed
      ensures Spots(players) == KeepPresent(Plan(old(Spots(players)), old(tweens), data).0, data)
      ensures tweens == Plan(old(Spots(players)), old(tweens), data).1
      ensures forall j :: 0 <= j < |old(players)| && !HasId(data, old(players)[j].id) ==> old(players)[j].destroyed
      ensures forall j :: 0 <= j < |old(players)| && HasId(data, old(players)[j].id) ==>
                old(players)[j].destroyed == old(players[j].destroyed)
    {
      ghost var made := ApplyUpdates(data);
      RemoveDisconnectedPlayers(data);
    }

    /** The `map` over the broadcast. */
    method ApplyUpdates(data: seq<PlayerRecord>) returns (ghost made: seq<Player>)
      modifies this`players, this`tweens
      ensures (Spots(players), tweens) == Plan(old(Spots(players)), old(tweens), data)
      ensures players == old(players) + made && fresh(made)
    {
      ghost var w := Spots(players);
      ghost var log := tweens;
      made := [];
      var i := 0;
      assert data[..i] == [];
      while i < |data|
        invariant 0 <= i <= |data|
        invariant (Spots(players), tweens) == Plan(w, log, data[..i])
        invariant players == old(players) + made && fresh(made)
      {
        PlanStep(w, log, data, i);
        ghost var created := AbsorbEntry(data[i]);
        ConcatAssoc(old(players), made, created);
        made := made + created;
        i := i + 1;
      }
      assert data[..i] == data;
    }

    /** The `map` callback for one broadcast entry: tween a known player,
        create an unknown one at the broadcast position. */
    method AbsorbEntry(e: PlayerRecord) returns (ghost made: seq<Player>)
      modifies this`players, this`tweens
      ensures (Spots(players), tweens) == Absorb(old(Spots(players)), old(tweens), e)
      ensures players == old(players) + made && fresh(made)
    {
      made := [];
      var here := Spots(players);
      var k := FindSpot(here, e.id);
      if k.Some? {
        var t := ChooseTween(here[k.value], e);
        if t.Some? {
          tweens := tweens + [t.value];
        }
      } else {
        var created := new Player(e.id, e.name, e.x, e.y);
        players := players + [created];
        made := [created];
        assert Spots(players) == here + [Spot(e.id, e.x, e.y)];
      }
    }

    /** `removeDisconnectedPlayers`. */
    method RemoveDisconnectedPlayers(data: seq<PlayerRecord>)
      modifies this`players, players`destroyed
      ensures Spots(players) == KeepPresent(old(Spots(players)), data)
      ensures forall j :: 0 <= j < |old(players)| && !HasId(data, old(players)[j].id) ==> old(players)[j].destroyed
      ensures forall j :: 0 <= j < |old(players)| && HasId(data, old(players)[j].id) ==>
                old(players)[j].destroyed == old(players[j].destroyed)
    {
      ghost var before := Spots(players);
      var all := players;
      players := FilterConnected(data);
      SpotsOfKept(all, data);
      assert Spots(all) == before;
    }

    /** The `filter` callback run over every player: keep the broadcast
        ones, destroy the sprite and label of the others. */
    method FilterConnected(data: seq<PlayerRecord>) returns (kept: seq<Player>)
      modifies players`destroyed
      ensures kept == KeepPlayers(players, data)
      ensures forall j :: 0 <= j < |players| && !HasId(data, players[j].id) ==> players[j].destroyed
      ensures forall j :: 0 <= j < |players| && HasId(data, players[j].id) ==> players[j].destroyed == old(players[j].destroyed)
    {
      kept := [];
      var i := 0;
      while i < |players|
        invariant 0 <= i <= |players|
        invariant kept == KeepPlayers(players[..i], data)
        invariant forall j :: 0 <= j < i && !HasId(data, players[j].id) ==> players[j].destroyed
        invariant forall j :: 0 <= j < |players| && HasId(data, players[j].id) ==>
                    players[j].destroyed == old(players[j].destroyed)
      {
        var p := players[i];
        PrefixGrows(players, i);
        if HasId(data, p.id) {
          kept := kept + [p];
        } else {
          p.Destroy();
        }
        i := i + 1;
      }
      assert players[..i] == players;
    }

    /** A player is still listed under that identifier. */
    predicate Listed(id: SocketId)
      reads this`players
    {
      exists i :: 0 <= i < |players| && players[i].id == id
    }

    /** A tween's `onStart`: play the animation of the direction of travel,
        judged from where the sprite is when the tween starts. */
    method OnTweenStart(p: Player, t: Tween)
      modifies p`anim, p`playing
      ensures p.playing
      ensures t.axis == Horizontal ==> (p.anim == Some(Right) <==> p.x < t.to) && (p.anim == Some(Left) <==> p.x >= t.to)
      ensures t.axis == Vertical ==> (p.anim == Some(Down) <==> p.y < t.to) && (p.anim == Some(Up) <==> p.y >= t.to)
    {
      var from := if t.axis == Horizontal then p.x else p.y;
      p.anim := Some(TweenTo(p.id, t.axis, from, t.to, None).anim);
      p.playing := true;
    }

    /** An x tween finished at `targetX`: if the player is still listed,
        stop it and start the y tween when `targetY` is truthy. */
    method OnXTweenComplete(p: Player, targetX: real, targetY: Option<real>)
      modifies p`x, p`labelX, p`vx, p`vy, p`frame, p`playing, this`tweens
      ensures p.x == targetX && p.labelX == targetX
      ensures Listed(p.id) ==> p.vx == 0 && p.vy == 0 && !p.playing && p.frame == StopFrame(p.anim, old(p.frame))
      ensures !Listed(p.id) ==> p.vx == old(p.vx) && p.vy == old(p.vy) && p.playing == old(p.playing) && p.frame == old(p.frame)
      ensures tweens == old(tweens) +
                if Listed(p.id) && Truthy(targetY) then [TweenTo(p.id, Vertical, p.y, targetY.value, None)] else []
    {
      p.x, p.labelX := targetX, targetX;
      if Listed(p.id) {
        p.Stop();
        if targetY.Some? && targetY.value != 0.0 {
          tweens := tweens + [TweenTo(p.id, Vertical, p.y, targetY.value, None)];
        }
      }
    }

    /** A y tween finished at `targetY`: stop the player if still listed. */
    method OnYTweenComplete(p: Player, targetY: real)
      modifies p`y, p`labelY, p`vx, p`vy, p`frame, p`playing
      ensures p.y == targetY && p.labelY == targetY
      ensures Listed(p.id) ==> p.vx == 0 && p.vy == 0 && !p.playing && p.frame == StopFrame(p.anim, old(p.frame))
      ensures !Listed(p.id) ==> p.vx == old(p.vx) && p.vy == old(p.vy) && p.playing == old(p.playing) && p.frame == old(p.frame)
    {
      p.y, p.labelY := targetY, targetY;
      if Listed(p.id) {
        p.Stop();
      }
    }
  }
}
