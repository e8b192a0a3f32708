/** What holds over every run of the lobby's steps. */
module LobbyRuns {
  import opened GoTypes
  import opened Geometry
  import opened RedisText
  import opened LobbyModel

  // ---------------------------------------------------------------------
  // Accounts, roles and connections
  // ---------------------------------------------------------------------

  /** At most three roles per account, and names that differ. */
  ghost predicate RolesInOrder(s: State) {
    && (forall a: int64 :: |RolesOf(s, a)| <= 3)
    && (forall q, r | q in s.roles && r in s.roles && s.roles[q].name == s.roles[r].name :: q == r)
  }

  /** Whoever is in a scene on a connection plays a role of the account whose session was checked. */
  ghost predicate Entitled(s: State) {
    forall c | c in s.conns && s.conns[c].state == InScene ::
      s.conns[c].role in s.roles && s.conns[c].account == Some(s.roles[s.conns[c].role].account)
  }

  // ---------------------------------------------------------------------
  // Maps and positions
  // ---------------------------------------------------------------------

  /**
   * What holds of one role: every map id, stored, cached or of a scene, is the one roles are created
   * with; a cached role is in the scene, and its cached position is text as the cache's client writes it.
   */
  ghost predicate Settled(s: State, r: int64)
    requires s.scenes.Keys == {1}
  {
    && (r in s.roles ==> s.roles[r].mapId == 1)
    && (r in s.cache ==> s.cache[r].mapId == 1 && r in s.scenes[1])
    && (r in s.cache ==> Writes(s.cache[r].written, CachedAt(s, r).x, CachedAt(s, r).y))
    && (r in s.scenes[1] ==> r in s.roles && r in s.last)
  }

  function CachedAt(s: State, r: int64): Vec
    requires r in s.cache
  {
    ValueOf(s.cache[r].written)
  }

  ghost predicate AllSettled(s: State) {
    s.scenes.Keys == {1} && forall r: int64 :: Settled(s, r)
  }

  ghost predicate InOrder(s: State) {
    RolesInOrder(s) && Entitled(s) && AllSettled(s)
  }

  /** A coordinate after it went through the cache: a whole number is written without a point and reads back as none. */
  function ThroughCache(v: real): Coord {
    if IsWhole(v) then None else Some(v)
  }

  /** What text of x and y reads back as. */
  lemma CachedReads(cache: map<int64, Cached>, r: int64, x: real, y: real)
    requires r in cache && cache[r].mapId == 1 && Writes(cache[r].written, x, y)
    ensures GetPosition(cache, r) == Some(Found(Place(ThroughCache(x), ThroughCache(y)), 1))
  {
    ReadsBackIffNotWhole(cache[r].written.x);
    ReadsBackIffNotWhole(cache[r].written.y);
    IntRoundTripIff(1);
  }

  lemma ReadMap(s: State, r: int64)
    requires AllSettled(s) && r in s.cache
    ensures GetPosition(s.cache, r).Some? && GetPosition(s.cache, r).value.mapId == 1
    ensures r in s.last && r in s.roles && s.roles[r].mapId == 1 && r in s.scenes[1]
  {
    assert Settled(s, r);
    IntRoundTripIff(1);
  }

  /** A cached position reads back as the one that was written, but for coordinates that are whole. */
  lemma ReadBack(s: State, r: int64)
    requires AllSettled(s) && r in s.cache
    ensures r in s.last && r in s.roles && s.roles[r].mapId == 1 && r in s.scenes[1]
    ensures GetPosition(s.cache, r) ==
            Some(Found(Place(ThroughCache(CachedAt(s, r).x), ThroughCache(CachedAt(s, r).y)), 1))
  {
    assert Settled(s, r);
    CachedReads(s.cache, r, CachedAt(s, r).x, CachedAt(s, r).y);
  }

  // ---------------------------------------------------------------------
  // Steps keep the order
  // ---------------------------------------------------------------------

  /** The same roles with the same accounts, names and maps; only positions may differ. */
  ghost predicate SameRoles(s: State, s': State) {
    && s'.roles.Keys == s.roles.Keys
    && forall r | r in s.roles :: s'.roles[r] == s.roles[r].(x := s'.roles[r].x, y := s'.roles[r].y)
  }

  lemma SameRolesInOrder(s: State, s': State)
    requires RolesInOrder(s) && SameRoles(s, s')
    ensures RolesInOrder(s')
  {
    forall a: int64 ensures |RolesOf(s', a)| <= 3 {
      assert RolesOf(s', a) == RolesOf(s, a);
    }
  }

  lemma RolesOfGrown(s: State, s': State, r: int64, role: Role, a: int64)
    requires r !in s.roles && s'.roles == s.roles[r := role]
    ensures r !in RolesOf(s, a)
    ensures RolesOf(s', a) == if a == role.account then RolesOf(s, a) + {r} else RolesOf(s, a)
  {}

  lemma RolesAfterCreate(s: State, s': State, r: int64, role: Role, a: int64)
    requires r !in s.roles && s'.roles == s.roles[r := role]
    ensures |RolesOf(s', a)| == |RolesOf(s, a)| + (if a == role.account then 1 else 0)
  {
    hide RolesOf;
    RolesOfGrown(s, s', r, role, a);
  }

  lemma CreateKeepsRoles(s: State, t: int64, name: string, r: int64)
    requires RolesInOrder(s) && r !in s.roles
    ensures RolesInOrder(Created(s, t, name, r))
  {
    var s' := Created(s, t, name, r);
    if s' != s {
      forall a: int64 ensures |RolesOf(s', a)| <= 3 {
        RolesAfterCreate(s, s', r, s'.roles[r], a);
      }
      assert forall q | q in s.roles :: s.roles[q].name != name;
    }
  }

  lemma CreateKeeps(s: State, t: int64, name: string, r: int64)
    requires InOrder(s) && r !in s.roles
    ensures InOrder(Created(s, t, name, r))
  {
    CreateKeepsRoles(s, t, name, r);
    var s' := Created(s, t, name, r);
    forall q: int64 ensures Settled(s', q) {
      assert Settled(s, q);
    }
  }

  /** Steps that touch only sessions, accounts and connections, or lock the table. */
  lemma ConnsOnly(s: State, s': State)
    requires InOrder(s) && Entitled(s')
    requires s' == s.(accounts := s'.accounts, sessions := s'.sessions, conns := s'.conns, locked := s'.locked)
    ensures InOrder(s')
  {
    SameRolesInOrder(s, s');
    forall q: int64 ensures Settled(s', q) {
      assert Settled(s, q);
    }
  }

  lemma EnterSettles(s: State, c: int64, t: int64, r: int64, w: Written)
    requires AllSettled(s) && c in s.conns && (Owns(s, t, r) ==> Writes(w, s.roles[r].x, s.roles[r].y))
    ensures AllSettled(Entered(s, c, t, r, w))
  {
    var s' := Entered(s, c, t, r, w);
    assert Settled(s, r);
    forall q: int64 ensures Settled(s', q) {
      assert Settled(s, q);
    }
  }

  lemma ReconnectSettles(s: State, c: int64, t: int64, r: int64)
    requires AllSettled(s) && c in s.conns
    ensures AllSettled(Reconnected(s, c, t, r))
  {
    var s' := Reconnected(s, c, t, r);
    assert Settled(s, r);
    if r in s.cache { ReadMap(s, r); }
    forall q: int64 ensures Settled(s', q) {
      assert Settled(s, q);
    }
  }

  lemma MoveSettles(s: State, r: int64, m: int64, x: real, y: real, allowed: bool, reached: bool, w: Written)
    requires AllSettled(s) && Writes(w, ClampCoord(x), ClampCoord(y))
    ensures AllSettled(MovedTo(s, r, m, x, y, allowed, reached, w))
  {
    var s' := MovedTo(s, r, m, x, y, allowed, reached, w);
    assert Settled(s, r);
    forall q: int64 ensures Settled(s', q) {
      assert Settled(s, q);
    }
  }

  /** Saving a cached position leaves everything as it is, or sets the coordinates of the role. */
  lemma SyncShape(s: State, role: int64) returns (x: real, y: real)
    requires AllSettled(s)
    ensures Synced(s, role) == s ||
            (role in s.roles && Synced(s, role) == s.(roles := s.roles[role := s.roles[role].(x := x, y := y)]))
  {
    x, y := 0.0, 0.0;
    if role in s.cache {
      ReadMap(s, role);
      var place := GetPosition(s.cache, role).value.place;
      if place.x.Some? && place.y.Some? {
        x, y := place.x.value, place.y.value;
        assert s.roles[role].(mapId := 1) == s.roles[role];
      }
    }
  }

  lemma SyncKeeps(s: State, role: int64)
    requires AllSettled(s)
    ensures AllSettled(Synced(s, role)) && SameRoles(s, Synced(s, role))
    ensures Synced(s, role) == s.(roles := Synced(s, role).roles)
  {
    hide Synced;
    var s' := Synced(s, role);
    var x, y := SyncShape(s, role);
    forall q: int64 ensures Settled(s', q) {
      assert Settled(s, q);
    }
  }

  /** Signing off saves and forgets the cached position; the role stays in its scene, as there is no scene 0. */
  lemma SignOffKeeps(s: State, role: int64)
    requires AllSettled(s)
    ensures AllSettled(SignedOff(s, role)) && SameRoles(s, SignedOff(s, role))
    ensures SignedOff(s, role) == s.(roles := Synced(s, role).roles, cache := s.cache - {role})
  {
    SyncKeeps(s, role);
    if role in s.cache { ReadMap(s, role); }
    var saved, off := Synced(s, role), SignedOff(s, role);
    forall q: int64 ensures Settled(off, q) {
      assert Settled(saved, q);
    }
  }

  lemma SignOffInOrder(s: State, role: int64)
    requires InOrder(s)
    ensures InOrder(SignedOff(s, role))
  {
    SignOffKeeps(s, role);
    SameRolesInOrder(s, SignedOff(s, role));
  }

  lemma LogoutKeeps(s: State, c: int64, t: int64)
    requires InOrder(s) && c in s.conns
    ensures InOrder(LoggedOut(s, c, t))
  {
    hide AllSettled, RolesInOrder, SignedOff;
    var role := s.conns[c].role;
    SignOffInOrder(s, role);
    SignOffKeeps(s, role);
    if t in s.sessions {
      ConnsOnly(if role > 0 then SignedOff(s, role) else s, LoggedOut(s, c, t));
    }
  }

  /** A connection that is closed entitles to nothing. */
  lemma ClosingEntitles(s: State, s': State, c: int64, conn: Conn)
    requires Entitled(s) && s'.roles == s.roles && s'.conns == s.conns[c := conn] && conn.state != InScene
    ensures Entitled(s')
  {}

  lemma TimeoutKeeps(s: State, c: int64)
    requires InOrder(s) && c in s.conns
    ensures InOrder(TimedOut(s, c))
  {
    hide AllSettled, RolesInOrder, SignedOff, SameRoles, Settled, Entitled;
    var conn := s.conns[c];
    SignOffInOrder(s, conn.role);
    SignOffKeeps(s, conn.role);
    if conn.state == Auth || conn.state == InScene {
      var off := if conn.role > 0 && conn.state == InScene then SignedOff(s, conn.role) else s;
      ClosingEntitles(off, TimedOut(s, c), c, conn.(state := Closed));
      ConnsOnly(off, TimedOut(s, c));
    }
  }

  /** A connection bound to a role of the account that was checked. */
  lemma BindingEntitles(s: State, s': State, c: int64, conn: Conn)
    requires Entitled(s) && s'.roles == s.roles && s'.conns == s.conns[c := conn]
    requires conn.role in s.roles && conn.account == Some(s.roles[conn.role].account)
    ensures Entitled(s')
  {}

  lemma EnterKeeps(s: State, c: int64, t: int64, r: int64, w: Written)
    requires InOrder(s) && c in s.conns && (Owns(s, t, r) ==> Writes(w, s.roles[r].x, s.roles[r].y))
    ensures InOrder(Entered(s, c, t, r, w))
  {
    hide AllSettled, Entitled, SceneEnter, Writes;
    var s' := Entered(s, c, t, r, w);
    EnterSettles(s, c, t, r, w);
    if Owns(s, t, r) {
      BindingEntitles(s, s', c, s'.conns[c]);
    }
    SameRolesInOrder(s, s');
  }

  /** A reconnect leaves the rows, and binds the connection. */
  lemma ReconnectBinds(s: State, c: int64, t: int64, r: int64)
    requires c in s.conns
    ensures var s' := Reconnected(s, c, t, r);
            && s'.roles == s.roles && s'.locked == s.locked
            && s'.conns ==
               if Owns(s, t, r) then s.conns[c := Conn(InScene, Some(t), r, Some(s.sessions[t]))] else s.conns
  {
    hide GetPosition, SceneEnter;
    if Owns(s, t, r) {
      var bound := s.(conns := s.conns[c := Conn(InScene, Some(t), r, Some(s.sessions[t]))]);
      var s' := Reconnected(s, c, t, r);
      assert s' == bound.(scenes := s'.scenes, last := s'.last);
    }
  }

  lemma ReconnectKeeps(s: State, c: int64, t: int64, r: int64)
    requires InOrder(s) && c in s.conns
    ensures InOrder(Reconnected(s, c, t, r))
  {
    hide AllSettled, Entitled, Reconnected, RolesInOrder;
    var s' := Reconnected(s, c, t, r);
    ReconnectSettles(s, c, t, r);
    ReconnectBinds(s, c, t, r);
    SameRolesInOrder(s, s');
    if Owns(s, t, r) {
      BindingEntitles(s, s', c, s'.conns[c]);
    } else {
      SameEntitles(s, s');
    }
  }

  lemma SameEntitles(s: State, s': State)
    requires Entitled(s) && s'.roles == s.roles && s'.conns == s.conns
    ensures Entitled(s')
  {}

  /** A move leaves everything but scene, cache and what is accepted. */
  lemma MoveKeepsTable(s: State, q: int64, m: int64, x: real, y: real, allowed: bool, reached: bool, w: Written)
    ensures var s' := MovedTo(s, q, m, x, y, allowed, reached, w);
            s'.conns == s.conns && s'.roles == s.roles && s'.locked == s.locked
  {
    hide SceneEnter, SetPosition, ClampCoord;
  }

  lemma MoveKeeps(s: State, r: int64, m: int64, x: real, y: real, allowed: bool, reached: bool, w: Written)
    requires InOrder(s) && Writes(w, ClampCoord(x), ClampCoord(y))
    ensures InOrder(MovedTo(s, r, m, x, y, allowed, reached, w))
  {
    hide AllSettled, RolesInOrder, MovedTo, Writes;
    MoveKeepsTable(s, r, m, x, y, allowed, reached, w);
    MoveSettles(s, r, m, x, y, allowed, reached, w);
    SameRolesInOrder(s, MovedTo(s, r, m, x, y, allowed, reached, w));
  }

  lemma SyncInOrder(s: State, role: int64)
    requires InOrder(s)
    ensures InOrder(Synced(s, role))
  {
    SyncKeeps(s, role);
    SameRolesInOrder(s, Synced(s, role));
  }

  /** Steps that bind no connection to a role. */
  predicate Quiet(ev: Event) {
    ev.Register? || ev.Connect? || ev.Login? || ev.Expire? || ev.Disconnect?
  }

  lemma QuietShape(s: State, ev: Event)
    requires Fair(s, ev) && Quiet(ev)
    ensures var s' := Next(s, ev);
            && s' == s.(accounts := s'.accounts, sessions := s'.sessions, conns := s'.conns, locked := s'.locked)
            && forall c | c in s'.conns && s'.conns[c].state == InScene :: c in s.conns && s'.conns[c] == s.conns[c]
  {}

  lemma QuietKeeps(s: State, ev: Event)
    requires InOrder(s) && Fair(s, ev) && Quiet(ev)
    ensures InOrder(Next(s, ev))
  {
    hide RolesInOrder, AllSettled, Next, Fair;
    QuietShape(s, ev);
    ConnsOnly(s, Next(s, ev));
  }

  lemma StepInOrder(s: State, ev: Event)
    requires InOrder(s) && Fair(s, ev)
    ensures InOrder(Next(s, ev))
  {
    hide InOrder, Created, Entered, Reconnected, MovedTo, LoggedOut, TimedOut, Synced, Writes, Owns;
    match ev
    case CreateRole(t, name, r) => CreateKeeps(s, t, name, r);
    case EnterScene(c, t, r, w) => EnterKeeps(s, c, t, r, w);
    case Reconnect(c, t, r) => ReconnectKeeps(s, c, t, r);
    case Move(r, m, x, y, allowed, reached, w) => MoveKeeps(s, r, m, x, y, allowed, reached, w);
    case Sync(r) => SyncInOrder(s, r);
    case Logout(c, t) => LogoutKeeps(s, c, t);
    case Timeout(c) => TimeoutKeeps(s, c);
    case _ => QuietKeeps(s, ev);
  }

  // ---------------------------------------------------------------------
  // Runs
  // ---------------------------------------------------------------------

  /** Nobody registered yet; the service has made the scene of map 1. */
  ghost predicate Initial(s: State) {
    s == State(map[], map[], map[], map[], map[], map[1 := map[]], map[], false)
  }

  ghost predicate Run(states: seq<State>, evs: seq<Event>) {
    && |states| == |evs| + 1 && Initial(states[0])
    && forall i | 0 <= i < |evs| :: Fair(states[i], evs[i]) && states[i + 1] == Next(states[i], evs[i])
  }

  /**
   * Over every run: at most three roles per account and no name twice; whoever is in a scene on a
   * connection plays a role of the account whose session was checked; and all map ids are 1, so no role is in
   * two scenes.
   */
  lemma {:induction false} RunInOrder(states: seq<State>, evs: seq<Event>, n: nat)
    requires Run(states, evs) && n < |states|
    ensures InOrder(states[n])
  {
    if n > 0 {
      RunInOrder(states, evs, n - 1);
      StepInOrder(states[n - 1], evs[n - 1]);
    } else {
      var s := states[0];
      forall a: int64 ensures |RolesOf(s, a)| <= 3 { assert RolesOf(s, a) == {}; }
      forall r: int64 ensures Settled(s, r) {}
    }
  }

  /** The role is in the scene of map 1. */
  ghost predicate In1(s: State, r: int64) {
    1 in s.scenes && r in s.scenes[1]
  }

  /**
   * Signing off does not take a role out of its scene: PlayerLeaveScene is called for scene 0, which no
   * run ever makes, so from the first entry on a role is in its scene for good.
   */
  lemma {:induction false} NeverLeaves(states: seq<State>, evs: seq<Event>, i: nat, n: nat, r: int64)
    requires Run(states, evs) && i <= n < |states| && In1(states[i], r)
    ensures In1(states[n], r)
  {
    hide Next, Settled, RolesInOrder, Entitled;
    if i == n {
    } else {
      NeverLeaves(states, evs, i, n - 1, r);
      RunInOrder(states, evs, n - 1);
      StaysIn(states[n - 1], evs[n - 1], r);
    }
  }

  lemma EnterStays(s: State, c: int64, t: int64, q: int64, w: Written, r: int64)
    requires In1(s, r) && c in s.conns
    ensures In1(Entered(s, c, t, q, w), r)
  {
    hide GetPosition;
  }

  lemma ReconnectStays(s: State, c: int64, t: int64, q: int64, r: int64)
    requires In1(s, r) && c in s.conns
    ensures In1(Reconnected(s, c, t, q), r)
  {
    hide FloatOf, IntOf;
  }

  lemma MoveStays(s: State, q: int64, m: int64, x: real, y: real, allowed: bool, reached: bool, w: Written, r: int64)
    requires In1(s, r)
    ensures In1(MovedTo(s, q, m, x, y, allowed, reached, w), r)
  {
  }

  lemma SignOffStays(s: State, c: int64, t: int64)
    requires 0 !in s.scenes && c in s.conns
    ensures LoggedOut(s, c, t).scenes == TimedOut(s, c).scenes == s.scenes
  {
    hide SavedRoles;
  }

  lemma StaysIn(s: State, ev: Event, r: int64)
    requires 0 !in s.scenes && In1(s, r) && Fair(s, ev)
    ensures In1(Next(s, ev), r)
  {
    hide Entered, Reconnected, MovedTo, LoggedOut, TimedOut, GetPosition, NameTaken, RolesOf;
    match ev
    case EnterScene(c, t, q, w) => EnterStays(s, c, t, q, w, r);
    case Reconnect(c, t, q) => ReconnectStays(s, c, t, q, r);
    case Move(q, m, x, y, allowed, reached, w) => MoveStays(s, q, m, x, y, allowed, reached, w, r);
    case Logout(c, t) => SignOffStays(s, c, t);
    case Timeout(c) => SignOffStays(s, c, 0);
    case _ =>
  }

  // ---------------------------------------------------------------------
  // The table of connections
  // ---------------------------------------------------------------------

  /** Binding a connection changes what is in the table, but not who is. */
  lemma EntryKeepsTable(s: State, c: int64, t: int64, q: int64, w: Written)
    requires c in s.conns
    ensures Entered(s, c, t, q, w).conns.Keys == s.conns.Keys && Entered(s, c, t, q, w).locked == s.locked
  {
    hide SceneEnter, SetPosition;
  }

  lemma LogoutKeepsTable(s: State, c: int64, t: int64)
    requires c in s.conns
    ensures LoggedOut(s, c, t).conns.Keys == s.conns.Keys && LoggedOut(s, c, t).locked == s.locked
  {
    hide SavedRoles, SceneLeave;
  }

  lemma CreationKeepsTable(s: State, t: int64, name: string, r: int64)
    ensures Created(s, t, name, r).conns == s.conns && Created(s, t, name, r).locked == s.locked
  {
    hide NameTaken, RolesOf;
  }

  /** The other handlers neither put connections into the table nor take any out, nor lock it. */
  lemma KeepsTable(s: State, ev: Event)
    requires Fair(s, ev) && !ev.Connect? && !ev.Disconnect? && !ev.Timeout?
    ensures Next(s, ev).conns.Keys == s.conns.Keys && Next(s, ev).locked == s.locked
  {
    hide Entered, Reconnected, MovedTo, LoggedOut, Created, WrittenBack, Writes, Owns;
    match ev
    case CreateRole(t, name, r) => CreationKeepsTable(s, t, name, r);
    case EnterScene(c, t, r, w) => EntryKeepsTable(s, c, t, r, w);
    case Reconnect(c, t, r) => ReconnectBinds(s, c, t, r);
    case Move(r, m, x, y, allowed, reached, w) => MoveKeepsTable(s, r, m, x, y, allowed, reached, w);
    case Logout(c, t) => LogoutKeepsTable(s, c, t);
    case _ =>
  }
}
