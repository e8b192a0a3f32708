/**
 * The lobby as objects: the database manager with its cache, the connections, the interface of the scene
 * service, and the handlers. Each handler is proved to take one step of LobbyModel.
 */
module LobbyServer {
  import opened GoTypes
  import opened Geometry
  import opened RedisText
  import opened LobbyModel

  // ---------------------------------------------------------------------
  // The database manager
  // ---------------------------------------------------------------------

  /** A position as the cache stores it. */
  datatype Hash = Hash(x: Text, y: Text, mapId: Text)

  datatype DbError = RoleFull | DuplicateName

  /** The cache is keyed by the text of a role's id; positions is that table, cache the same by id. */
  class Manager {
    var accounts: map<int64, string>
    var roles: map<int64, Role>
    var sessions: map<int64, int64>
    var positions: map<Text, Hash>
    ghost var cache: map<int64, Cached>

    ghost predicate Keyed(r: int64)
      reads this`positions, this`cache
    {
      && (r in cache <==> IntText(r) in positions)
      && (r in cache ==> positions[IntText(r)] == Hash(cache[r].XText(), cache[r].YText(), cache[r].MapText()))
    }

    ghost predicate Valid()
      reads this`positions, this`cache
    {
      forall r: int64 :: Keyed(r)
    }

    constructor ()
      ensures Valid() && accounts == map[] && roles == map[] && sessions == map[] && cache == map[]
    {
      accounts, roles, sessions, positions, cache := map[], map[], map[], map[], map[];
    }

    method SetPosition(roleID: int64, t: Written, mapID: int64)
      requires Valid()
      modifies this`positions, this`cache
      ensures Valid() && cache == LobbyModel.SetPosition(old(cache), roleID, t, mapID)
      ensures cache == old(cache)[roleID := Cached(t, mapID)]
    {
      var key := FormatInt64(roleID);
      var mapText := FormatInt64(mapID);
      positions := positions[key := Hash(t.x.Shortest(), t.y.Shortest(), mapText)];
      cache := LobbyModel.SetPosition(cache, roleID, t, mapID);
      forall r: int64 ensures Keyed(r) {
        assert old(Keyed(r));
        if IntText(r) == key { IntTextInjective(r, roleID); }
      }
    }

    /** The cached position, if there is one; zeros if not. */
    method GetPosition(roleID: int64) returns (x: Coord, y: Coord, mapID: int64, found: bool)
      requires Valid()
      ensures found <==> roleID in cache
      ensures found ==> LobbyModel.GetPosition(cache, roleID) == Some(Found(Place(x, y), mapID))
      ensures !found ==> x == y == Some(0.0) && mapID == 0
    {
      var key := FormatInt64(roleID);
      assert Keyed(roleID);
      if key !in positions {
        return Some(0.0), Some(0.0), 0, false;
      }
      var hash := positions[key];
      x := ParseFloat(hash.x);
      y := ParseFloat(hash.y);
      mapID := ParseInt(hash.mapId);
      found := true;
    }

    method DelPosition(roleID: int64)
      requires Valid()
      modifies this`positions, this`cache
      ensures Valid() && cache == old(cache) - {roleID}
    {
      var key := FormatInt64(roleID);
      positions := positions - {key};
      cache := cache - {roleID};
      forall r: int64 ensures Keyed(r) {
        assert old(Keyed(r));
        if IntText(r) == key { IntTextInjective(r, roleID); }
      }
    }

    method UpdateRolePosition(roleID: int64, x: Coord, y: Coord, mapID: int64)
      modifies this`roles
      ensures roles == LobbyModel.UpdateRolePosition(old(roles), roleID, Place(x, y), mapID)
      ensures x.Some? && y.Some? && roleID in old(roles) ==>
              roles == old(roles)[roleID := old(roles)[roleID].(x := x.value, y := y.value, mapId := mapID)]
      ensures x.None? || y.None? || roleID !in old(roles) ==> roles == old(roles)
    {
      if x.None? || y.None? {
        return;
      }
      if roleID in roles {
        roles := roles[roleID := roles[roleID].(x := x.value, y := y.value, mapId := mapID)];
      }
    }

    /** Writes the cached positions of the given roles back to the database. */
    method SyncPosition(roleIDs: seq<int64>)
      requires Valid()
      modifies this`roles
      ensures roles == WrittenBackAll(old(roles), cache, roleIDs)
    {
      for k := 0 to |roleIDs|
        invariant roles == WrittenBackAll(old(roles), cache, roleIDs[..k])
      {
        var x, y, mapID, found := GetPosition(roleIDs[k]);
        assert roleIDs[..k + 1][..k] == roleIDs[..k];
        if found {
          UpdateRolePosition(roleIDs[k], x, y, mapID);
        }
      }
      assert roleIDs[..|roleIDs|] == roleIDs;
    }

    predicate IsRoleNameExist(name: string)
      reads this`roles
    {
      exists r :: r in roles && roles[r].name == name
    }

    /** A new row, under a key of the database's choosing, unless the account has three roles or the name is taken. */
    method CreateRole(accountID: int64, name: string, id: int64) returns (err: Option<DbError>)
      requires id !in roles
      modifies this`roles
      ensures var full := |set r | r in old(roles) && old(roles)[r].account == accountID| >= 3;
              && err == (if full then Some(RoleFull)
                         else if old(IsRoleNameExist(name)) then Some(DuplicateName) else None)
              && roles == if err.None? then old(roles)[id := Role(accountID, name, 1, 100.0, 100.0)] else old(roles)
    {
      var count := |set r | r in roles && roles[r].account == accountID|;
      if count >= 3 {
        return Some(RoleFull);
      }
      if IsRoleNameExist(name) {
        return Some(DuplicateName);
      }
      roles := roles[id := Role(accountID, name, 1, 100.0, 100.0)];
      return None;
    }

    method SetSession(token: int64, accountID: int64)
      modifies this`sessions
      ensures sessions == old(sessions)[token := accountID]
    {
      sessions := sessions[token := accountID];
    }

    method DelSession(token: int64)
      modifies this`sessions
      ensures sessions == old(sessions) - {token}
    {
      sessions := sessions - {token};
    }
  }

  // ---------------------------------------------------------------------
  // Connections and the scene service's interface
  // ---------------------------------------------------------------------

  /** In nanoseconds, as all times. */
  const HEARTBEAT_TIMEOUT := 30_000_000_000

  /** What the lobby uses of a connection. */
  class Connection {
    const id: int64
    var state: ConnState
    var sessionID: Option<int64>
    var roleID: int64
    var lastHeartbeat: int
    ghost var account: Option<int64>

    constructor (id: int64, now: int)
      ensures this.id == id && lastHeartbeat == now && Value() == Conn(Init, None, 0, None)
    {
      this.id, lastHeartbeat := id, now;
      state, sessionID, roleID, account := Init, None, 0, None;
    }

    /** In use, and without a sign of life for longer than the timeout. */
    predicate Overdue(now: int)
      reads this
    {
      (state == Auth || state == InScene) && now - lastHeartbeat > HEARTBEAT_TIMEOUT
    }

    ghost function Value(): Conn
      reads this
    {
      Conn(state, sessionID, roleID, account)
    }
  }

  /** The scene service as the lobby calls it: where each role is, map by map. */
  class SceneAPI {
    var scenes: map<int64, map<int64, Place>>

    constructor ()
      ensures scenes == map[1 := map[]]
    {
      scenes := map[1 := map[]];
    }

    method PlayerEnterScene(roleID: int64, mapID: int64, x: Coord, y: Coord)
      modifies this
      ensures scenes == SceneEnter(old(scenes), roleID, mapID, Place(x, y))
    {
      scenes := SceneEnter(scenes, roleID, mapID, Place(x, y));
    }

    method PlayerLeaveScene(roleID: int64, mapID: int64)
      modifies this
      ensures scenes == SceneLeave(old(scenes), roleID, mapID)
    {
      if mapID in scenes {
        scenes := scenes[mapID := scenes[mapID] - {roleID}];
      }
    }

    /** Some scene that has the role. */
    method FindSceneByRoleID(roleID: int64) returns (found: Option<int64>)
      ensures found.Some? ==> found.value in scenes && roleID in scenes[found.value]
      ensures found.None? ==> forall m | m in scenes :: roleID !in scenes[m]
    {
      var rest := scenes.Keys;
      while rest != {}
        invariant rest <= scenes.Keys
        invariant forall m | m in scenes && m !in rest :: roleID !in scenes[m]
      {
        var m := Pick(rest);
        if roleID in scenes[m] {
          return Some(m);
        }
        rest := rest - {m};
      }
      return None;
    }

    /**
     * A move, as far as positions go: the role's place becomes the clamped position, and so does the cached
     * one, if the move gets that far. allowed is the rate limiter's answer; at is the map the role was found in.
     */
    method HandleMove(roleID: int64, x: real, y: real, allowed: bool, reached: bool, manager: Manager, t: Written)
      returns (at: Option<int64>)
      requires manager.Valid()
      modifies this, manager`positions, manager`cache
      ensures manager.Valid()
      ensures at.Some? ==> at.value in old(scenes) && roleID in old(scenes)[at.value]
      ensures at.None? ==> forall m | m in old(scenes) :: roleID !in old(scenes)[m]
      ensures scenes == if at.Some? && allowed
                        then SceneEnter(old(scenes), roleID, at.value, Place(Some(ClampCoord(x)), Some(ClampCoord(y))))
                        else old(scenes)
      ensures manager.cache == if at.Some? && allowed && reached
                               then LobbyModel.SetPosition(old(manager.cache), roleID, t, at.value)
                               else old(manager.cache)
    {
      at := FindSceneByRoleID(roleID);
      if at.Some? && allowed {
        var newX, newY := ClampCoord(x), ClampCoord(y);
        scenes := SceneEnter(scenes, roleID, at.value, Place(Some(newX), Some(newY)));
        if reached {
          manager.SetPosition(roleID, t, at.value);
        }
      }
    }
  }

  // ---------------------------------------------------------------------
  // The lobby
  // ---------------------------------------------------------------------

  datatype ErrCode = ErrOk | ErrSessionInvalid | ErrRoleNotFound | ErrRoleNameExist | ErrRoleFull

  class Lobby {
    const manager: Manager
    const sceneAPI: SceneAPI
    var conns: map<int64, Connection>
    var locked: bool // the table's lock is held for good
    ghost var last: map<int64, Vec>

    constructor ()
      ensures Valid() && Now() == State(map[], map[], map[], map[], map[], map[1 := map[]], map[], false)
    {
      manager := new Manager();
      sceneAPI := new SceneAPI();
      conns, locked, last := map[], false, map[];
    }

    ghost predicate Valid()
      reads this`conns, manager`positions, manager`cache
    {
      manager.Valid() && forall k | k in conns :: conns[k].id == k
    }

    ghost function Conns(): map<int64, Conn>
      reads this`conns, conns.Values
    {
      map k | k in conns :: conns[k].Value()
    }

    ghost function Now(): State
      reads this, conns.Values, manager, sceneAPI
    {
      State(manager.accounts, manager.roles, manager.sessions, manager.cache, Conns(), sceneAPI.scenes, last, locked)
    }

    ghost predicate Has(c: Connection)
      reads this`conns
    {
      c.id in conns && conns[c.id] == c
    }

    /** A role of the session's account gets a new name, unless it is taken or the account has three. */
    method HandleCreateRole(token: int64, name: string, id: int64) returns (err: ErrCode)
      requires Valid() && id !in manager.roles
      modifies manager`roles
      ensures Valid() && Now() == Created(old(Now()), token, name, id)
      ensures err == ErrOk <==> Now() != old(Now())
      ensures var sessions, roles := old(manager.sessions), old(manager.roles);
              if token !in sessions then err == ErrSessionInvalid
              else if exists r :: r in roles && roles[r].name == name then err == ErrRoleNameExist
              else if |set r | r in roles && roles[r].account == sessions[token]| >= 3 then err == ErrRoleFull
              else err == ErrOk && manager.roles == roles[id := Role(sessions[token], name, 1, 100.0, 100.0)]
    {
      if token !in manager.sessions {
        return ErrSessionInvalid;
      }
      var accountID := manager.sessions[token];
      if manager.IsRoleNameExist(name) {
        return ErrRoleNameExist;
      }
      ghost var s := Now();
      assert RolesOf(s, accountID) == set r | r in manager.roles && manager.roles[r].account == accountID;
      var e := manager.CreateRole(accountID, name, id);
      err := if e.Some? then ErrRoleFull else ErrOk;
    }

    /** The connection plays the role from now on; account is the one whose session was checked. */
    method BindRole(c: Connection, roleID: int64, session: Option<int64>, now: int, ghost account: int64)
      requires Valid() && Has(c)
      modifies c
      ensures Valid()
      ensures Conns() == old(Conns())[c.id := Conn(InScene, session, roleID, Some(account))] && c.lastHeartbeat == now
    {
      c.state := InScene;
      c.sessionID := session;
      c.roleID := roleID;
      c.lastHeartbeat := now;
      c.account := Some(account);
    }

    /** The answer to who asks with a token to play a role. */
    static function Refusal(sessions: map<int64, int64>, roles: map<int64, Role>, token: int64, roleID: int64)
      : (err: ErrCode)
      ensures err == ErrSessionInvalid <==> token !in sessions
      ensures err == ErrOk <==> token in sessions && roleID in roles && roles[roleID].account == sessions[token]
      ensures err == ErrOk || err == ErrSessionInvalid || err == ErrRoleNotFound
    {
      if token !in sessions then ErrSessionInvalid
      else if roleID !in roles || roles[roleID].account != sessions[token] then ErrRoleNotFound
      else ErrOk
    }

    /** Whether the session may play the role. */
    method Authorize(token: int64, roleID: int64) returns (err: ErrCode)
      ensures err == ErrOk <==> Owns(Now(), token, roleID)
      ensures err == Refusal(manager.sessions, manager.roles, token, roleID)
    {
      if token !in manager.sessions {
        return ErrSessionInvalid;
      }
      if roleID !in manager.roles || manager.roles[roleID].account != manager.sessions[token] {
        return ErrRoleNotFound;
      }
      return ErrOk;
    }

    /** A role appears in a scene, at a position just read from the database. */
    method PutInScene(roleID: int64, mapID: int64, x: real, y: real)
      modifies sceneAPI, this`last
      ensures sceneAPI.scenes == SceneEnter(old(sceneAPI.scenes), roleID, mapID, Place(Some(x), Some(y)))
      ensures last == old(last)[roleID := Vec(x, y)]
    {
      sceneAPI.PlayerEnterScene(roleID, mapID, Some(x), Some(y));
      last := last[roleID := Vec(x, y)];
    }

    /** Its position is cached, and it appears there. */
    method CacheAndPut(roleID: int64, role: Role, t: Written)
      requires manager.Valid()
      modifies manager`positions, manager`cache, sceneAPI, this`last
      ensures manager.Valid() && manager.cache == LobbyModel.SetPosition(old(manager.cache), roleID, t, role.mapId)
      ensures sceneAPI.scenes ==
              SceneEnter(old(sceneAPI.scenes), roleID, role.mapId, Place(Some(role.x), Some(role.y)))
      ensures last == old(last)[roleID := Vec(role.x, role.y)]
    {
      manager.SetPosition(roleID, t, role.mapId);
      PutInScene(roleID, role.mapId, role.x, role.y);
    }

    method HandleEnterScene(c: Connection, token: int64, roleID: int64, t: Written, now: int) returns (err: ErrCode)
      requires Valid() && Has(c)
      modifies c, manager`positions, manager`cache, sceneAPI, this`last
      ensures Valid() && Now() == Entered(old(Now()), c.id, token, roleID, t)
      ensures err == ErrOk <==> Owns(old(Now()), token, roleID)
      ensures err == Refusal(old(manager.sessions), old(manager.roles), token, roleID)
      ensures c.lastHeartbeat == if err == ErrOk then now else old(c.lastHeartbeat)
    {
      hide Manager.Valid, SceneEnter, LobbyModel.SetPosition;
      err := Authorize(token, roleID);
      if err != ErrOk {
        return;
      }
      BindRole(c, roleID, c.sessionID, now, manager.sessions[token]);
      ghost var cs := Conns();
      CacheAndPut(roleID, manager.roles[roleID], t);
      assert Conns() == cs;
    }

    /** A role appears where the cache has it, else where the database has it. */
    method PutBack(roleID: int64)
      requires manager.Valid() && roleID in manager.roles
      modifies sceneAPI, this`last
      ensures var role := manager.roles[roleID];
              match LobbyModel.GetPosition(manager.cache, roleID)
              case Some(f) =>
                && last == old(last)
                && sceneAPI.scenes == SceneEnter(old(sceneAPI.scenes), roleID, f.mapId, f.place)
              case None =>
                && last == old(last)[roleID := Vec(role.x, role.y)]
                && var p := Place(Some(role.x), Some(role.y));
                   sceneAPI.scenes == SceneEnter(old(sceneAPI.scenes), roleID, role.mapId, p)
    {
      var role := manager.roles[roleID];
      var x, y, mapID, found := manager.GetPosition(roleID);
      if !found {
        x, y, mapID := Some(role.x), Some(role.y), role.mapId;
        last := last[roleID := Vec(role.x, role.y)];
      }
      sceneAPI.PlayerEnterScene(roleID, mapID, x, y);
    }

    method HandleReconnect(c: Connection, token: int64, roleID: int64, now: int) returns (err: ErrCode)
      requires Valid() && Has(c)
      modifies c, manager`sessions, sceneAPI, this`last
      ensures Valid() && Now() == Reconnected(old(Now()), c.id, token, roleID)
      ensures err == ErrOk <==> Owns(old(Now()), token, roleID)
      ensures err == Refusal(old(manager.sessions), old(manager.roles), token, roleID)
      ensures c.lastHeartbeat == if err == ErrOk then now else old(c.lastHeartbeat)
    {
      hide Manager.Valid, SceneEnter, GetPosition;
      err := Authorize(token, roleID);
      if err != ErrOk {
        return;
      }
      manager.SetSession(token, manager.roles[roleID].account);
      assert manager.sessions == old(manager.sessions);
      BindRole(c, roleID, Some(token), now, manager.sessions[token]);
      ghost var cs := Conns();
      PutBack(roleID);
      assert Conns() == cs;
    }

    /** A role leaves: its position is saved, no longer cached, and scene 0 is asked to let go of it. */
    method SignOff(roleID: int64)
      requires manager.Valid()
      modifies manager`roles, manager`positions, manager`cache, sceneAPI
      ensures manager.Valid() && manager.roles == SavedRoles(old(manager.roles), old(manager.cache), roleID)
      ensures manager.cache == old(manager.cache) - {roleID}
      ensures sceneAPI.scenes == SceneLeave(old(sceneAPI.scenes), roleID, 0)
    {
      var x, y, mapID, _ := manager.GetPosition(roleID);
      if mapID > 0 {
        manager.UpdateRolePosition(roleID, x, y, mapID);
      }
      manager.DelPosition(roleID);
      sceneAPI.PlayerLeaveScene(roleID, 0);
    }

    method HandleLogout(c: Connection, token: int64) returns (err: ErrCode)
      requires Valid() && Has(c)
      modifies c, manager`roles, manager`positions, manager`cache, manager`sessions, sceneAPI
      ensures Valid() && Now() == LoggedOut(old(Now()), c.id, token)
      ensures err == if token in old(manager.sessions) then ErrOk else ErrSessionInvalid
      ensures manager.sessions == old(manager.sessions) - {token} && c.lastHeartbeat == old(c.lastHeartbeat)
      ensures err == ErrOk ==> c.state == Closed && c.sessionID == None && c.roleID == 0
    {
      hide Manager.Valid, SavedRoles, SceneLeave;
      if token !in manager.sessions {
        assert manager.sessions - {token} == manager.sessions;
        return ErrSessionInvalid;
      }
      ghost var cs := Conns();
      SignOffIf(c.roleID, c.roleID > 0);
      manager.DelSession(token);
      assert Conns() == cs;
      Unbind(c);
      return ErrOk;
    }

    method SignOffIf(roleID: int64, plays: bool)
      requires manager.Valid()
      modifies manager`roles, manager`positions, manager`cache, sceneAPI
      ensures manager.Valid()
      ensures manager.roles ==
              if plays then SavedRoles(old(manager.roles), old(manager.cache), roleID) else old(manager.roles)
      ensures manager.cache == if plays then old(manager.cache) - {roleID} else old(manager.cache)
      ensures sceneAPI.scenes == if plays then SceneLeave(old(sceneAPI.scenes), roleID, 0) else old(sceneAPI.scenes)
    {
      if plays {
        SignOff(roleID);
      }
    }

    method Unbind(c: Connection)
      requires Valid() && Has(c)
      modifies c
      ensures Valid()
      ensures Conns() == old(Conns())[c.id := old(c.Value()).(state := Closed, session := None, role := 0)]
      ensures c.state == Closed && c.sessionID == None && c.roleID == 0 && c.lastHeartbeat == old(c.lastHeartbeat)
    {
      c.state := Closed;
      c.sessionID := None;
      c.roleID := 0;
    }

    /** A connection comes into the table, or, if the table is locked, waits for it. */
    method AddConn(c: Connection)
      requires Valid() && c.id !in conns && c.Value() == Conn(Init, None, 0, None)
      modifies this`conns
      ensures Valid() && Now() == Next(old(Now()), Connect(c.id))
    {
      if !locked {
        conns := conns[c.id := c];
      }
    }

    /** A connection that was closed goes out of the table, or, if the table is locked, waits for it. */
    method RemoveConn(c: Connection)
      requires Valid() && Has(c)
      modifies this`conns
      ensures Valid() && Now() == Next(old(Now()), Disconnect(c.id))
    {
      if !locked {
        conns := conns - {c.id};
      }
    }

    /**
     * A sweep comes to a connection that is overdue: its role signs off, its session ends, and it is closed.
     * Closing waits for the table, which the sweep itself holds.
     */
    method TimeOut(c: Connection)
      requires Valid() && Has(c) && (c.state == Auth || c.state == InScene)
      modifies c, manager`roles, manager`positions, manager`cache, manager`sessions, sceneAPI, this`locked
      ensures Valid() && Now() == TimedOut(old(Now()), c.id)
      ensures c.state == Closed && (old(c.sessionID).Some? ==> old(c.sessionID).value !in manager.sessions)
    {
      hide Manager.Valid, SavedRoles, SceneLeave;
      ghost var cs := Conns();
      SignOffIf(c.roleID, c.roleID > 0 && c.state == InScene);
      if c.sessionID.Some? {
        manager.DelSession(c.sessionID.value);
      }
      assert Conns() == cs;
      Close(c);
    }

    method Close(c: Connection)
      requires Valid() && Has(c)
      modifies c, this`locked
      ensures Valid() && locked && Conns() == old(Conns())[c.id := old(c.Value()).(state := Closed)]
      ensures c.state == Closed
    {
      c.state := Closed;
      locked := true;
    }

    ghost predicate Late(k: int64, now: int)
      reads this`conns, conns.Values
    {
      k in conns && conns[k].Overdue(now)
    }

    /**
     * A sweep over the connections, in an order that is not specified: it times out the first overdue one it
     * comes to, and gets no further. Without one, nothing happens. Overdue are those in use whose last sign of life
     * is more than thirty seconds ago.
     */
    method CheckHeartbeatTimeouts(now: int) returns (closed: Option<int64>)
      requires Valid()
      modifies this`locked, conns.Values, manager`roles, manager`positions, manager`cache, manager`sessions, sceneAPI
      ensures Valid()
      ensures closed.None? ==> Now() == old(Now()) && (old(locked) || forall k: int64 :: !old(Late(k, now)))
      ensures closed.Some? ==>
        !old(locked) && old(Late(closed.value, now)) && Now() == TimedOut(old(Now()), closed.value)
      ensures closed.None? && !old(locked) ==>
        forall k | k in conns && (conns[k].state == Auth || conns[k].state == InScene) ::
          now - conns[k].lastHeartbeat <= 30_000_000_000
      ensures closed.Some? ==>
        && closed.value in old(conns) && now - old(conns[closed.value].lastHeartbeat) > 30_000_000_000
        && (old(conns[closed.value].state) == Auth || old(conns[closed.value].state) == InScene)
    {
      hide Manager.Valid, TimedOut;
      closed := None;
      if locked {
        return;
      }
      var order := InSomeOrder(conns.Keys);
      for i := 0 to |order|
        invariant forall j | 0 <= j < i :: !Late(order[j], now)
      {
        var c := conns[order[i]];
        if c.Overdue(now) {
          TimeOut(c);
          return Some(order[i]);
        }
      }
    }

    method HandleMove(roleID: int64, x: real, y: real, allowed: bool, reached: bool, t: Written)
      returns (ghost m: int64)
      requires Valid() && (!locked ==> reached)
      modifies manager`positions, manager`cache, sceneAPI, this`last
      ensures Valid() && Now() == MovedTo(old(Now()), roleID, m, x, y, allowed, reached, t)
      ensures roleID in SceneAt(old(sceneAPI.scenes), m) ||
              forall k | k in old(sceneAPI.scenes) :: roleID !in old(sceneAPI.scenes)[k]
    {
      var at := sceneAPI.HandleMove(roleID, x, y, allowed, reached, manager, t);
      m := if at.Some? then at.value else 0;
      if at.Some? && allowed {
        last := last[roleID := Vec(ClampCoord(x), ClampCoord(y))];
      }
    }
  }
}
