/** The scene service: enters, leaves and moves, and the messages they send. */
module SceneServer {
  import opened GoTypes
  import opened Geometry
  import opened Grid
  import opened SceneModel
  import opened Scenes
  import opened MoveLimit
  import opened AoiWorld

  /** What the lobby offers to the service: for a role, the connection it is bound to. */
  class LobbyAPI {
    var conns: map<int64, int64>

    function GetConnByRoleID(roleID: int64): Option<int64>
      reads this
    {
      Find(conns, roleID)
    }
  }

  /** The connections of the service, everything handed to them, and the positions handed to the cache. */
  class Outbox {
    const lobby: LobbyAPI
    var roleConns: map<int64, int64>
    var seqCounter: uint32
    ghost var net: Net
    var saved: seq<Saved>

    ghost predicate Valid()
      reads this
    {
      seqCounter == Counter(net.ticks)
    }

    constructor (lobby: LobbyAPI)
      ensures Valid() && this.lobby == lobby && roleConns == map[] && net == Net([], 0) && saved == []
    {
      this.lobby := lobby;
      roleConns, seqCounter, net, saved := map[], 0, Net([], 0), [];
    }

    /** The service's own table first, then the lobby's. */
    function GetConn(roleID: int64): (conn: Option<int64>)
      reads this, lobby
      ensures conn == Find(lobby.conns + roleConns, roleID)
    {
      if roleID in roleConns then Some(roleConns[roleID]) else lobby.GetConnByRoleID(roleID)
    }

    method NextSeq() returns (next: uint32)
      requires Valid()
      modifies this`seqCounter, this`net
      ensures Valid() && net == old(net).(ticks := old(net).ticks + 1) && next == Counter(net.ticks)
    {
      seqCounter := (seqCounter + 1) % 0x1_0000_0000;
      net := net.(ticks := net.ticks + 1);
      next := seqCounter;
    }

    /** A message with the next sequence number; none is taken if there is no connection. */
    method SendNext(conn: Option<int64>, msg: Msg)
      requires Valid()
      modifies this`seqCounter, this`net
      ensures Valid() && net == Send(old(net), conn, msg)
    {
      if conn.Some? {
        var next := NextSeq();
        net := net.(log := net.log + [Delivery(conn.value, next, msg)]);
      }
    }

    /** The same message to each, through the lobby's table. */
    method SendAll(ids: seq<int64>, msg: Msg)
      requires Valid()
      modifies this`seqCounter, this`net
      ensures Valid() && net == Tell(old(net), lobby.conns, ids, msg)
    {
      for k := 0 to |ids|
        invariant Valid() && net == Tell(old(net), lobby.conns, ids[..k], msg)
      {
        assert ids[..k + 1][..k] == ids[..k];
        SendNext(lobby.GetConnByRoleID(ids[k]), msg);
      }
      assert ids[..|ids|] == ids;
    }

    /** To each who came into view the mover, and to the mover each of them. */
    method SendEnters(enters: seq<Entity>, me: Info, ghost s: SceneState)
      requires Valid()
      requires AsShown(enters, s)
      modifies this`seqCounter, this`net
      ensures Valid() && net == Meet(old(net), lobby.conns + roleConns, s, IdsOf(enters), me)
    {
      ghost var ids := IdsOf(enters);
      for k := 0 to |enters|
        invariant Valid() && net == Meet(old(net), lobby.conns + roleConns, s, ids[..k], me)
      {
        var enter := enters[k];
        assert ids[..k + 1][..k] == ids[..k] && ids[k] == enter.id;
        SendNext(GetConn(enter.id), AOIEnter([me]));
        SendNext(GetConn(me.id), AOIEnter([Info(enter.id, enter.name, enter.pos)]));
      }
      assert ids[..|ids|] == ids;
    }

    /** To each who went out of view that the mover left, and to the mover that they did. */
    method SendLeaves(leaves: seq<Entity>, roleID: int64)
      requires Valid()
      modifies this`seqCounter, this`net
      ensures Valid() && net == Part(old(net), lobby.conns + roleConns, IdsOf(leaves), roleID)
    {
      ghost var ids := IdsOf(leaves);
      for k := 0 to |leaves|
        invariant Valid() && net == Part(old(net), lobby.conns + roleConns, ids[..k], roleID)
      {
        var leave := leaves[k];
        assert ids[..k + 1][..k] == ids[..k] && ids[k] == leave.id;
        SendNext(GetConn(leave.id), AOILeave([roleID]));
        SendNext(GetConn(roleID), AOILeave([leave.id]));
      }
      assert ids[..|ids|] == ids;
    }

    /** The new position to each who sees the mover: one sequence number, header 0. */
    method SendMove(visible: seq<Entity>, roleID: int64, p: Vec)
      requires Valid()
      modifies this`seqCounter, this`net
      ensures Valid() && net == Broadcast(old(net), lobby.conns + roleConns, IdsOf(visible), roleID, p)
    {
      var next := NextSeq();
      ghost var start, ids := net, IdsOf(visible);
      var msg := MoveBroadcast(roleID, p, ToInt32(next));
      for k := 0 to |visible|
        invariant Valid() && net == Shout(start, lobby.conns + roleConns, ids[..k], msg)
        invariant net.ticks == start.ticks
      {
        assert ids[..k + 1][..k] == ids[..k] && ids[k] == visible[k].id;
        var conn := GetConn(visible[k].id);
        if conn.Some? {
          net := net.(log := net.log + [Delivery(conn.value, 0, msg)]);
        }
      }
      assert ids[..|ids|] == ids;
    }

    /** The newcomer hears of those around, they hear of the newcomer. */
    method SendGreetings(others: seq<Entity>, me: Info, ghost s: SceneState)
      requires Valid()
      requires AsShown(others, s)
      modifies this`seqCounter, this`net
      ensures Valid() && net == Greet(old(net), lobby.conns, s, IdsOf(others), me)
    {
      var aoiPlayers, enterIDs := [], [];
      for k := 0 to |others|
        invariant aoiPlayers == Infos(s, IdsOf(others)[..k]) && enterIDs == IdsOf(others)[..k]
      {
        var other := others[k];
        aoiPlayers := aoiPlayers + [Info(other.id, other.name, other.pos)];
        enterIDs := enterIDs + [other.id];
      }
      assert IdsOf(others)[..|others|] == IdsOf(others);
      if |aoiPlayers| > 0 {
        SendNext(lobby.GetConnByRoleID(me.id), AOIEnter(aoiPlayers));
      }
      SendAll(enterIDs, AOIEnter([me]));
    }

    method Register(roleID: int64)
      modifies this`roleConns
      ensures roleConns ==
              if roleID in lobby.conns then old(roleConns)[roleID := lobby.conns[roleID]] else old(roleConns)
    {
      var conn := lobby.GetConnByRoleID(roleID);
      if conn.Some? {
        roleConns := roleConns[roleID := conn.value];
      }
    }

    /** All that goes out for an entry; then the service knows the connection, too. */
    method Welcome(others: seq<Entity>, me: Info, ghost s: SceneState)
      requires Valid()
      requires AsShown(others, s)
      modifies this`seqCounter, this`net, this`roleConns
      ensures Valid() && net == Greet(old(net), lobby.conns, s, IdsOf(others), me)
      ensures roleConns == if me.id in lobby.conns then old(roleConns)[me.id := lobby.conns[me.id]] else old(roleConns)
    {
      SendGreetings(others, me, s);
      Register(me.id);
    }

    /**
     * The messages of a move: those of the difference, then the broadcast. The position then goes to the
     * cache.
     */
    method Announce(enters: seq<Entity>, leaves: seq<Entity>, visible: seq<Entity>, roleID: int64, p: Vec, mapID: int64,
                    ghost s: SceneState)
      requires Valid()
      requires AsShown(enters, s)
      modifies this`seqCounter, this`net, this`saved
      ensures Valid() && saved == old(saved) + [Saved(roleID, p, mapID)]
      ensures var conns := lobby.conns + roleConns;
              var met := Meet(old(net), conns, s, IdsOf(enters), Info(roleID, "", p));
              net == Broadcast(Part(met, conns, IdsOf(leaves), roleID), conns, IdsOf(visible), roleID, p)
    {
      SendEnters(enters, Info(roleID, "", p), s);
      SendLeaves(leaves, roleID);
      SendMove(visible, roleID, p);
      saved := saved + [Saved(roleID, p, mapID)];
    }

    method Unregister(roleID: int64)
      modifies this`roleConns
      ensures roleConns == old(roleConns) - {roleID}
    {
      roleConns := roleConns - {roleID};
    }
  }

  class SceneManager {
    var scenes: map<int64, Scene>
    const mapWidth: real
    const mapHeight: real
    const gridSize: real

    ghost predicate Sized() {
      gridSize >= 1.0 && CellCount(mapWidth, gridSize) >= 1 && CellCount(mapHeight, gridSize) >= 1
    }

    ghost function Shape(): Dims
      requires Sized()
    {
      Dims(CellCount(mapWidth, gridSize), CellCount(mapHeight, gridSize), gridSize)
    }

    /** s is in good order, serves map m, and amounts to st. */
    ghost predicate InOrder(s: Scene, m: int64, st: SceneState)
      requires Sized()
      reads s, s.m.all
    {
      s.Valid() && s.id == m && s.aoi.Shape() == Shape() && s.m.state == st
    }

    /** As far as map m goes, ws is what the scenes amount to. */
    ghost predicate Tracks(ws: map<int64, SceneState>, m: int64)
      requires Sized()
      reads this, scenes.Values, set k, o | k in scenes && o in scenes[k].m.all :: o
    {
      (m in scenes <==> m in ws) && (m in scenes ==> InOrder(scenes[m], m, ws[m]))
    }

    lemma OwnObjects(ws: map<int64, SceneState>)
      requires Sized() && forall m: int64 :: Tracks(ws, m)
      ensures forall m | m in scenes :: scenes[m] in scenes[m].m.all
    {
      forall m | m in scenes ensures scenes[m] in scenes[m].m.all {
        assert Tracks(ws, m);
      }
    }

    constructor (mapWidth: real, mapHeight: real, gridSize: real)
      requires gridSize >= 1.0
      requires CellCount(mapWidth, gridSize) >= 1 && CellCount(mapHeight, gridSize) >= 1
      ensures this.mapWidth == mapWidth && this.mapHeight == mapHeight && this.gridSize == gridSize
      ensures Sized() && forall m: int64 :: Tracks(map[1 := EMPTY_SCENE], m)
      ensures scenes.Keys == {1} && fresh(scenes[1].m.all) && this !in scenes[1].m.all
    {
      this.mapWidth, this.mapHeight, this.gridSize, scenes := mapWidth, mapHeight, gridSize, map[];
      new;
      var _ := GetOrCreateScene(1, map[]);
    }

    method GetOrCreateScene(mapID: int64, ghost ws: map<int64, SceneState>) returns (s: Scene)
      requires Sized() && Tracks(ws, mapID)
      modifies this
      ensures scenes == old(scenes)[mapID := s] && (mapID in old(scenes) ==> s == old(scenes)[mapID])
      ensures mapID !in old(scenes) ==> fresh(s.m.all)
      ensures InOrder(s, mapID, if mapID in ws then ws[mapID] else EMPTY_SCENE)
    {
      if mapID in scenes {
        return scenes[mapID];
      }
      s := new Scene(mapID, mapWidth, mapHeight, gridSize);
      scenes := scenes[mapID := s];
    }

    function GetScene(mapID: int64): Option<Scene>
      reads this
    {
      Find(scenes, mapID)
    }

    /** Some scene that has the role, if there is one. */
    method FindSceneByRoleID(roleID: int64, ghost ws: map<int64, SceneState>) returns (found: Option<Scene>)
      requires Sized() && forall m: int64 :: Tracks(ws, m)
      ensures found.None? ==> forall m | m in ws :: roleID !in ws[m].pos
      ensures found.Some? ==>
        var m := found.value.id; m in scenes && scenes[m] == found.value && m in ws && roleID in ws[m].pos
    {
      hide Scene.Valid;
      OwnObjects(ws);
      var order := InSomeOrder(scenes.Keys);
      forall m: int64
        ensures m in scenes <==> m in ws
        ensures m in scenes ==> InOrder(scenes[m], m, ws[m])
      {
        assert old(Tracks(ws, m));
        if m in scenes {
          assert old(InOrder(scenes[m], m, ws[m]));
        }
      }
      for i := 0 to |order|
        invariant forall j | 0 <= j < i :: roleID !in ws[order[j]].pos
      {
        var sc := scenes[order[i]];
        assert InOrder(sc, order[i], ws[order[i]]);
        if sc.Has(roleID) {
          return Some(sc);
        }
      }
      return None;
    }
  }

  class Server {
    const sceneMgr: SceneManager
    const moveLimiter: MoveLimiter
    const outbox: Outbox
    ghost var ws: map<int64, SceneState>

    constructor (sceneMgr: SceneManager, lobby: LobbyAPI, interval: int)
      ensures this.sceneMgr == sceneMgr && fresh(moveLimiter) && fresh(outbox) && outbox.lobby == lobby
      ensures ws == map[1 := EMPTY_SCENE]
      ensures moveLimiter.interval == interval && moveLimiter.lastMove == map[]
      ensures outbox.Valid() && outbox.roleConns == map[] && outbox.net == Net([], 0) && outbox.saved == []
    {
      this.sceneMgr := sceneMgr;
      moveLimiter := new MoveLimiter(interval);
      outbox := new Outbox(lobby);
      ws := map[1 := EMPTY_SCENE];
    }

    /** What the service amounts to when its scenes amount to ws. */
    ghost function Now(ws: map<int64, SceneState>): World
      requires sceneMgr.Sized()
      reads moveLimiter, outbox, outbox.lobby
    {
      World.World(sceneMgr.Shape(), moveLimiter.interval, ws, moveLimiter.lastMove,
                  outbox.roleConns, outbox.lobby.conns, outbox.net, outbox.saved)
    }

    /** The objects of the scene for a map, if there is one. */
    ghost function SceneObjects(m: int64): set<object>
      reads sceneMgr, sceneMgr.scenes.Values
    {
      if m in sceneMgr.scenes then sceneMgr.scenes[m].m.all else {}
    }

    /** All objects of all scenes. */
    ghost function Objects(): set<object>
      reads sceneMgr, sceneMgr.scenes.Values
    {
      set m, o | m in sceneMgr.scenes && o in sceneMgr.scenes[m].m.all :: o
    }

    /**
     * The service amounts to the world with scenes ws: the scenes' objects are in good order, apart from each
     * other, and apart from the service's own.
     */
    ghost predicate Serves(ws: map<int64, SceneState>)
      reads sceneMgr, moveLimiter, outbox, outbox.lobby, sceneMgr.scenes.Values, Objects()
    {
      && sceneMgr.Sized() && outbox.Valid()
      && (forall m: int64 :: sceneMgr.Tracks(ws, m))
      && (forall m: int64, n: int64 | m != n :: SceneObjects(m) !! SceneObjects(n))
      && (forall m: int64 :: SceneObjects(m) !! {this, sceneMgr, moveLimiter, outbox, outbox.lobby})
    }

    /** The service is in order: its scenes amount to ws. */
    ghost predicate Valid()
      reads this, sceneMgr, moveLimiter, outbox, outbox.lobby, sceneMgr.scenes.Values, Objects()
    {
      Serves(ws)
    }

    /** What it amounts to. */
    ghost function State(): World
      requires sceneMgr.Sized()
      reads this, moveLimiter, outbox, outbox.lobby
    {
      Now(ws)
    }

    /** The scene of the map, made if need be, with the role in it. */
    method PlaceIn(mapID: int64, roleID: int64, name: string, x: real, y: real, ghost ws: map<int64, SceneState>)
      returns (scene: Scene, others: seq<Entity>)
      requires sceneMgr.Sized() && sceneMgr.Tracks(ws, mapID)
      requires SceneObjects(mapID) !! {sceneMgr, moveLimiter, outbox, outbox.lobby}
      modifies sceneMgr, SceneObjects(mapID)
      ensures sceneMgr.scenes == old(sceneMgr.scenes)[mapID := scene]
      ensures mapID in old(sceneMgr.scenes) ==> scene == old(sceneMgr.scenes)[mapID]
      ensures fresh(scene.m.all - old(SceneObjects(mapID)))
      ensures sceneMgr.InOrder(scene, mapID, scene.m.state)
      ensures scene.m.state ==
              Added(sceneMgr.Shape(), if mapID in ws then ws[mapID] else EMPTY_SCENE, roleID, name, Vec(x, y))
      ensures Lists(IdsOf(others), Neighbours(sceneMgr.Shape(), scene.m.state.pos, roleID)) && Reports(others, scene.m)
    {
      hide Scene.Valid;
      scene := sceneMgr.GetOrCreateScene(mapID, ws);
      others := scene.AddPlayer(roleID, name, x, y);
    }

    /** A role enters a map; the name comes from the database, empty if the role is not found there. */
    method EnterMap(roleID: int64, mapID: int64, x: real, y: real, roleName: Option<string>,
                    ghost ws: map<int64, SceneState>)
      returns (ghost ws': map<int64, SceneState>)
      requires sceneMgr.Sized() && sceneMgr.Tracks(ws, mapID) && outbox.Valid()
      requires SceneObjects(mapID) !! {sceneMgr, moveLimiter, outbox, outbox.lobby}
      modifies sceneMgr, SceneObjects(mapID), outbox
      ensures sceneMgr.Tracks(ws', mapID) && outbox.Valid()
      ensures ws'.Keys == ws.Keys + {mapID} && ws' == ws[mapID := ws'[mapID]]
      ensures sceneMgr.scenes.Keys == old(sceneMgr.scenes.Keys) + {mapID}
      ensures forall n | n in old(sceneMgr.scenes) :: sceneMgr.scenes[n] == old(sceneMgr.scenes)[n]
      ensures fresh(SceneObjects(mapID) - old(SceneObjects(mapID)))
      ensures var name := if roleName.Some? then roleName.value else "";
              EnterStep(old(Now(ws)), roleID, mapID, name, Vec(x, y), Now(ws'))
    {
      hide Scene.Valid, SceneManager.InOrder, Added, Greet, Neighbours;
      ghost var w := Now(ws);
      var name := if roleName.Some? then roleName.value else "";
      var scene, others := PlaceIn(mapID, roleID, name, x, y, ws);
      outbox.Welcome(others, Info(roleID, name, Vec(x, y)), scene.m.state);
      ws' := ws[mapID := scene.m.state];
      assert EnterWith(w, roleID, mapID, name, Vec(x, y), IdsOf(others), Now(ws'));
    }

    /** A role leaves a map: without effect if there is no such scene. */
    method LeaveMap(roleID: int64, mapID: int64, ghost ws: map<int64, SceneState>)
      returns (ghost ws': map<int64, SceneState>)
      requires sceneMgr.Sized() && sceneMgr.Tracks(ws, mapID) && outbox.Valid()
      requires SceneObjects(mapID) !! {sceneMgr, moveLimiter, outbox, outbox.lobby}
      modifies SceneObjects(mapID), moveLimiter, outbox
      ensures sceneMgr.Tracks(ws', mapID) && outbox.Valid() && ws'.Keys == ws.Keys
      ensures ws' == if mapID in ws then ws[mapID := ws'[mapID]] else ws
      ensures SceneObjects(mapID) == old(SceneObjects(mapID))
      ensures LeaveStep(old(Now(ws)), roleID, mapID, Now(ws'))
    {
      hide Scene.Valid;
      ws' := ws;
      var scene := sceneMgr.GetScene(mapID);
      if scene.None? {
        return;
      }
      ghost var w := Now(ws);
      ghost var others := NotifyLeave(scene.value, roleID);
      scene.value.RemovePlayer(roleID);
      moveLimiter.Remove(roleID);
      outbox.Unregister(roleID);
      ws' := ws[mapID := scene.value.m.state];
      assert LeaveWith(w, roleID, mapID, others, Now(ws'));
    }

    /** Those around the role, if it is in the scene, hear that it leaves. */
    method NotifyLeave(scene: Scene, roleID: int64) returns (ghost others: seq<int64>)
      requires scene.Valid() && outbox.Valid() && outbox !in scene.m.all
      modifies outbox`seqCounter, outbox`net
      ensures outbox.Valid() && outbox.net == Tell(old(outbox.net), outbox.lobby.conns, others, AOILeave([roleID]))
      ensures Lists(others, if roleID in scene.m.state.pos
                            then Neighbours(scene.aoi.Shape(), scene.m.state.pos, roleID) else {})
    {
      others := [];
      if scene.Has(roleID) {
        var entity := scene.em.entities[roleID];
        assert Fits(scene.aoi.Shape(), scene.em.entities, scene.m, roleID);
        var visible := scene.GetVisiblePlayers(roleID, entity.pos.x, entity.pos.y);
        AroundIsNeighbours(scene.aoi.Shape(), scene.m.state.pos, roleID);
        others := IdsOf(visible);
        outbox.SendAll(IdsOf(visible), AOILeave([roleID]));
      }
    }

    /** A move is announced to those concerned, and to all who see the mover now. */
    method NotifyMove(scene: Scene, aoiEnter: seq<Entity>, aoiLeave: seq<Entity>, roleID: int64, p: Vec)
      returns (ghost l: Lists3)
      requires scene.Valid() && outbox.Valid() && outbox !in scene.m.all
      requires roleID in scene.m.state.pos && scene.m.state.pos[roleID] == p && Reports(aoiEnter, scene.m)
      modifies outbox`saved, outbox`seqCounter, outbox`net
      ensures outbox.saved == old(outbox.saved) + [Saved(roleID, p, scene.id)]
      ensures outbox.Valid() && l.enters == IdsOf(aoiEnter) && l.leaves == IdsOf(aoiLeave)
      ensures Lists(l.visible, Neighbours(scene.aoi.Shape(), scene.m.state.pos, roleID))
      ensures forall i | 0 <= i < |l.enters| :: l.enters[i] in scene.m.state.shown
      ensures var conns := outbox.lobby.conns + outbox.roleConns;
              var met := Meet(old(outbox.net), conns, scene.m.state, l.enters, Info(roleID, "", p));
              outbox.net == Broadcast(Part(met, conns, l.leaves, roleID), conns, l.visible, roleID, p)
    {
      var visible := scene.GetVisiblePlayers(roleID, p.x, p.y);
      AroundIsNeighbours(scene.aoi.Shape(), scene.m.state.pos, roleID);
      l := Lists3(IdsOf(aoiEnter), IdsOf(aoiLeave), IdsOf(visible));
      outbox.Announce(aoiEnter, aoiLeave, visible, roleID, p, scene.id, scene.m.state);
    }

    /** A move that the limiter has let through. */
    method MoveAllowed(scene: Scene, roleID: int64, p: Vec, ghost ws: map<int64, SceneState>)
      returns (ghost ws': map<int64, SceneState>, ghost l: Lists3)
      requires sceneMgr.Sized() && scene.id in ws && sceneMgr.InOrder(scene, scene.id, ws[scene.id]) && outbox.Valid()
      requires roleID in ws[scene.id].pos && roleID in ws[scene.id].shown && roleID in moveLimiter.lastMove
      requires scene.m.all !! {sceneMgr, moveLimiter, outbox, outbox.lobby}
      modifies scene.m.all, outbox
      ensures ws' == ws[scene.id := scene.m.state] && sceneMgr.InOrder(scene, scene.id, scene.m.state) && outbox.Valid()
      ensures fresh(scene.m.all - old(scene.m.all))
      ensures MoveWith(old(Now(ws)), roleID, scene.id, p, moveLimiter.lastMove[roleID], l, Now(ws'))
    {
      hide Scene.Valid;
      ghost var lastMove := moveLimiter.lastMove;
      assert lastMove == lastMove[roleID := lastMove[roleID]];
      var aoiEnter, aoiLeave, _ := scene.MovePlayer(roleID, p.x, p.y);
      l := NotifyMove(scene, aoiEnter, aoiLeave, roleID, p);
      ws' := ws[scene.id := scene.m.state];
    }

    /** A move in the scene that was found for the role; too soon after the last one, it is dropped. */
    method MoveIn(scene: Scene, roleID: int64, x: real, y: real, now: int, ghost ws: map<int64, SceneState>)
      returns (ghost ws': map<int64, SceneState>)
      requires sceneMgr.Sized() && scene.id in ws && sceneMgr.InOrder(scene, scene.id, ws[scene.id]) && outbox.Valid()
      requires roleID in ws[scene.id].pos && roleID in ws[scene.id].shown
      requires scene.m.all !! {sceneMgr, moveLimiter, outbox, outbox.lobby}
      modifies scene.m.all, moveLimiter, outbox
      ensures ws' == ws[scene.id := scene.m.state] && sceneMgr.InOrder(scene, scene.id, scene.m.state) && outbox.Valid()
      ensures fresh(scene.m.all - old(scene.m.all))
      ensures MoveStep(old(Now(ws)), roleID, x, y, now, Now(ws'))
    {
      hide Scene.Valid;
      ghost var w := Now(ws);
      ws' := ws;
      assert w.Holds(scene.id, roleID);
      var newX, newY := ClampCoord(x), ClampCoord(y);
      var ok := moveLimiter.Allow(roleID, now);
      if !ok {
        assert ws == ws[scene.id := scene.m.state];
        return;
      }
      ghost var w1 := Now(ws);
      ghost var l;
      ws', l := MoveAllowed(scene, roleID, Vec(newX, newY), ws);
      MoveForgetsLast(w, w1, roleID, scene.id, Vec(newX, newY), now, l, Now(ws'));
    }

    // The three calls, on a service that amounts to the world with scenes ws.

    method EnterFrom(roleID: int64, mapID: int64, x: real, y: real, roleName: Option<string>,
                     ghost ws: map<int64, SceneState>)
      returns (ghost ws': map<int64, SceneState>)
      requires Serves(ws)
      modifies sceneMgr, Objects(), outbox
      ensures Serves(ws')
      ensures var name := if roleName.Some? then roleName.value else "";
              EnterStep(old(Now(ws)), roleID, mapID, name, Vec(x, y), Now(ws'))
    {
      hide Scene.Valid, SceneManager.InOrder, EnterStep;
      sceneMgr.OwnObjects(ws);
      ws' := EnterMap(roleID, mapID, x, y, roleName, ws);
      forall n: int64 | n != mapID ensures sceneMgr.Tracks(ws', n) && SceneObjects(n) == old(SceneObjects(n)) {
        assert old(sceneMgr.Tracks(ws, n));
        if n in sceneMgr.scenes {
          var sc := sceneMgr.scenes[n];
          assert old(SceneObjects(n) !! SceneObjects(mapID));
          assert old(sceneMgr.InOrder(sc, n, ws[n]));
          assert sceneMgr.InOrder(sc, n, ws[n]);
        }
      }
    }

    method LeaveFrom(roleID: int64, mapID: int64, ghost ws: map<int64, SceneState>)
      returns (ghost ws': map<int64, SceneState>)
      requires Serves(ws)
      modifies Objects(), moveLimiter, outbox
      ensures Serves(ws') && LeaveStep(old(Now(ws)), roleID, mapID, Now(ws'))
    {
      hide Scene.Valid, SceneManager.InOrder, LeaveStep;
      sceneMgr.OwnObjects(ws);
      ws' := LeaveMap(roleID, mapID, ws);
      forall n: int64 | n != mapID ensures sceneMgr.Tracks(ws', n) && SceneObjects(n) == old(SceneObjects(n)) {
        assert old(sceneMgr.Tracks(ws, n));
        if n in sceneMgr.scenes {
          var sc := sceneMgr.scenes[n];
          assert old(SceneObjects(n) !! SceneObjects(mapID));
          assert old(sceneMgr.InOrder(sc, n, ws[n]));
          assert sceneMgr.InOrder(sc, n, ws[n]);
        }
      }
    }

    /** A move in one of the scenes leaves the others as they are. */
    method MoveOn(scene: Scene, roleID: int64, x: real, y: real, now: int, ghost ws: map<int64, SceneState>)
      returns (ghost ws': map<int64, SceneState>)
      requires Serves(ws) && scene.id in ws && roleID in ws[scene.id].pos && roleID in ws[scene.id].shown
      requires scene.id in sceneMgr.scenes && sceneMgr.scenes[scene.id] == scene
      modifies moveLimiter, outbox, scene.m.all
      ensures Serves(ws') && MoveStep(old(Now(ws)), roleID, x, y, now, Now(ws'))
    {
      hide Scene.Valid, SceneManager.InOrder, MoveStep;
      sceneMgr.OwnObjects(ws);
      assert sceneMgr.Tracks(ws, scene.id) && SceneObjects(scene.id) == scene.m.all;
      ws' := MoveIn(scene, roleID, x, y, now, ws);
      assert sceneMgr.Tracks(ws', scene.id) && SceneObjects(scene.id) == scene.m.all;
      forall n: int64 | n != scene.id ensures sceneMgr.Tracks(ws', n) && SceneObjects(n) == old(SceneObjects(n)) {
        assert old(sceneMgr.Tracks(ws, n));
        if n in sceneMgr.scenes {
          var sc := sceneMgr.scenes[n];
          assert old(SceneObjects(n) !! SceneObjects(scene.id));
          assert old(sceneMgr.InOrder(sc, n, ws[n]));
          assert sceneMgr.InOrder(sc, n, ws[n]);
        }
      }
    }

    /** A request to move: looks for the role's scene; the position is clamped to the map. */
    method MoveFrom(roleID: int64, x: real, y: real, now: int, ghost ws: map<int64, SceneState>)
      returns (ghost ws': map<int64, SceneState>)
      requires Serves(ws)
      modifies moveLimiter, outbox, Objects()
      ensures Serves(ws') && MoveStep(old(Now(ws)), roleID, x, y, now, Now(ws'))
    {
      hide Scene.Valid;
      ws' := ws;
      var found := sceneMgr.FindSceneByRoleID(roleID, ws);
      if found.None? {
        assert forall m: int64 :: !Now(ws).Holds(m, roleID);
        return;
      }
      var scene := found.value;
      assert sceneMgr.Tracks(ws, scene.id);
      scene.PlayerShown(roleID);
      ws' := MoveOn(scene, roleID, x, y, now, ws);
    }

    // The three calls, as the lobby and the connections make them.

    method PlayerEnterScene(roleID: int64, mapID: int64, x: real, y: real, roleName: Option<string>)
      requires Valid()
      modifies this, sceneMgr, Objects(), outbox
      ensures Valid()
      ensures var name := if roleName.Some? then roleName.value else "";
              EnterStep(old(State()), roleID, mapID, name, Vec(x, y), State())
    {
      hide Serves, EnterStep;
      ghost var ws' := EnterFrom(roleID, mapID, x, y, roleName, ws);
      ServesMeans(ws');
      ws := ws';
    }

    method PlayerLeaveScene(roleID: int64, mapID: int64)
      requires Valid()
      modifies this, Objects(), moveLimiter, outbox
      ensures Valid() && LeaveStep(old(State()), roleID, mapID, State())
    {
      hide Serves, LeaveStep;
      ghost var ws' := LeaveFrom(roleID, mapID, ws);
      ServesMeans(ws');
      ws := ws';
    }

    method HandleMove(roleID: int64, x: real, y: real, now: int)
      requires Valid()
      modifies this, moveLimiter, outbox, Objects()
      ensures Valid() && MoveStep(old(State()), roleID, x, y, now, State())
    {
      hide Serves, MoveStep;
      ghost var ws' := MoveFrom(roleID, x, y, now, ws);
      ServesMeans(ws');
      ws := ws';
    }

    lemma ServesMeans(ws: map<int64, SceneState>)
      requires Serves(ws)
      ensures sceneMgr.Sized() && this !in Objects()
    {
      forall m: int64 | m in sceneMgr.scenes ensures this !in sceneMgr.scenes[m].m.all {
        assert SceneObjects(m) == sceneMgr.scenes[m].m.all;
      }
    }
  }

  /** The service as it starts: the scene of map 1, nobody in it, nothing sent. */
  method NewService(mapWidth: real, mapHeight: real, gridSize: real, lobby: LobbyAPI, interval: int) returns (s: Server)
    requires gridSize >= 1.0
    requires CellCount(mapWidth, gridSize) >= 1 && CellCount(mapHeight, gridSize) >= 1
    ensures s.Valid() && s.State() ==
            World.World(Dims(CellCount(mapWidth, gridSize), CellCount(mapHeight, gridSize), gridSize), interval,
                        map[1 := EMPTY_SCENE], map[], map[], lobby.conns, Net([], 0), [])
  {
    hide Scene.Valid;
    var sceneMgr := new SceneManager(mapWidth, mapHeight, gridSize);
    sceneMgr.OwnObjects(map[1 := EMPTY_SCENE]);
    label Made:
    s := new Server(sceneMgr, lobby, interval);
    forall m: int64
      ensures sceneMgr.Tracks(map[1 := EMPTY_SCENE], m)
      ensures m != 1 ==> s.SceneObjects(m) == {}
    {
      assert old@Made(sceneMgr.Tracks(map[1 := EMPTY_SCENE], m));
      if m == 1 {
        assert old@Made(sceneMgr.InOrder(sceneMgr.scenes[1], 1, EMPTY_SCENE));
      }
    }
  }
}
