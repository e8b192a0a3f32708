/**
 * Lobby and scene service together: the calls the lobby's handlers make, what they keep in step, and when
 * the clients' views stay true over runs of the lobby.
 */
module LobbyViews {
  import opened GoTypes
  import opened Geometry
  import opened Grid
  import opened SceneModel
  import opened RedisText
  import opened LobbyModel
  import L = LobbyRuns
  import P = Positions
  import opened WriteBack
  import A = AoiWorld
  import V = Views
  import R = Reentry
  import M = MoveLimit

  // ---------------------------------------------------------------------
  // In step
  // ---------------------------------------------------------------------

  /** Lobby and scene service have r at the same place, and the service has a connection for it. */
  ghost predicate PlacedAlike(s: State, w: A.World, r: int64) {
    && (L.In1(s, r) <==> w.Holds(1, r))
    && (w.Holds(1, r) ==> r in w.roleConns)
    && (L.In1(s, r) && w.Holds(1, r) ==> s.scenes[1][r] == At(w.scenes[1].pos[r]))
  }

  predicate Plays(s: State, c: int64, r: int64) {
    c in s.conns && s.conns[c].role == r
  }

  /** The lobby's search for the connection of r finds c exactly if c is bound to r. */
  ghost predicate FoundAlike(s: State, w: A.World, r: int64, c: int64) {
    if r > 0 then (r in w.lobby && w.lobby[r] == c <==> Plays(s, c, r)) else r !in w.lobby
  }

  ghost predicate InStep(s: State, w: A.World) {
    && L.InOrder(s) && w.dims.Ok() && w.scenes.Keys == {1} && (forall r | r in s.roles :: r > 0)
    && (forall r: int64 :: PlacedAlike(s, w, r))
    && (!s.locked ==> forall r: int64, c: int64 :: FoundAlike(s, w, r, c))
  }

  // ---------------------------------------------------------------------
  // The calls of a step
  // ---------------------------------------------------------------------

  /** Where a role that reconnects is put: where the cache has it, else where the database has it. */
  function ReentryAt(s: State, r: int64): Found
    requires r in s.roles
  {
    match GetPosition(s.cache, r)
    case Some(f) => f
    case None => Found(At(Vec(s.roles[r].x, s.roles[r].y)), s.roles[r].mapId)
  }

  /** An accepted entry: the connection, the role, the map and the place. */
  datatype Entry = Entry(conn: int64, role: int64, mapId: int64, place: Place)

  function EntryOf(s: State, ev: Event): Option<Entry> {
    match ev
    case EnterScene(c, t, r, _) =>
      if Owns(s, t, r) then Some(Entry(c, r, s.roles[r].mapId, At(Vec(s.roles[r].x, s.roles[r].y)))) else None
    case Reconnect(c, t, r) =>
      if Owns(s, t, r) then Some(Entry(c, r, ReentryAt(s, r).mapId, ReentryAt(s, r).place)) else None
    case _ => None
  }

  predicate Exact(p: Place) {
    p.x.Some? && p.y.Some?
  }

  function Point(p: Place): Vec
    requires Exact(p)
  {
    Vec(p.x.value, p.y.value)
  }

  /** The connection is found for no role any more. */
  function Unbound(w: A.World, c: int64): A.World {
    w.(lobby := map q | q in w.lobby && w.lobby[q] != c :: w.lobby[q])
  }

  /** The call for scene 0 by which a role is to leave, and then the connection is unbound. */
  ghost predicate GoneStep(w: A.World, c: int64, role: int64, leaves: bool, w': A.World)
    requires w.dims.Ok()
  {
    exists left: A.World {:trigger A.LeaveStep(w, role, 0, left)} ::
      (if leaves then A.LeaveStep(w, role, 0, left) else left == w) && w' == Unbound(left, c)
  }

  /**
   * What the handler of a step makes of the scene service. A move that does not get through is one that has
   * to look for a connection in the locked table, because the service has none itself.
   */
  ghost predicate ServiceStep(s: State, ev: Event, w: A.World, w': A.World)
    requires w.dims.Ok()
  {
    match ev
    case EnterScene(_, _, _, _) => EntryStep(s, ev, w, w')
    case Reconnect(_, _, _) => EntryStep(s, ev, w, w')
    case Move(r, _, x, y, allowed, reached, _) =>
      if reached then
        exists now :: (allowed <==> M.Permits(w.lastMove, w.interval, r, now)) && A.MoveStep(w, r, x, y, now, w')
      else
        s.locked && exists q: int64 :: w.Holds(1, q) && q !in w.roleConns
    case Logout(c, t) =>
      if c in s.conns && t in s.sessions then GoneStep(w, c, s.conns[c].role, s.conns[c].role > 0, w') else w' == w
    case Timeout(c) =>
      if !s.locked && c in s.conns && (s.conns[c].state == Auth || s.conns[c].state == InScene)
      then GoneStep(w, c, s.conns[c].role, s.conns[c].role > 0 && s.conns[c].state == InScene, w')
      else w' == w
    case Disconnect(c) => w' == if s.locked then w else Unbound(w, c)
    case _ => w' == w
  }

  ghost predicate EntryStep(s: State, ev: Event, w: A.World, w': A.World)
    requires w.dims.Ok()
  {
    match EntryOf(s, ev)
    case None => w' == w
    case Some(e) =>
      Exact(e.place) && e.role in s.roles &&
      A.Step(w, A.Enter(e.conn, e.role, e.mapId, s.roles[e.role].name, Point(e.place)), w')
  }

  // ---------------------------------------------------------------------
  // Orderly entries
  // ---------------------------------------------------------------------

  /** Nobody else is on the connection, and the role is on no other. */
  ghost predicate Exclusive(s: State, w: A.World, e: Entry) {
    && (forall q: int64 | q != e.role && q in w.roleConns :: w.roleConns[q] != e.conn)
    && (forall c | c in s.conns && s.conns[c].role == e.role :: c == e.conn)
  }

  /**
   * An entry while the table is open, at a position that is one, on a connection that is the role's already or
   * was never used, and, for a role in the scene, within its cell.
   */
  ghost predicate Orderly(s: State, w: A.World, e: Entry)
    requires w.dims.Ok()
  {
    && !s.locked && Exact(e.place) && Exclusive(s, w, e)
    && (R.Unused(w.net.log, e.conn) || (e.role in w.lobby && w.lobby[e.role] == e.conn && w.Holds(1, e.role)))
    && (w.Holds(1, e.role) ==> CellOf(w.dims, w.scenes[1].pos[e.role]) == CellOf(w.dims, Point(e.place)))
  }

  /** Orderly entries are admissible: they keep all views true. */
  lemma OrderlyIsAdmissible(s: State, w: A.World, e: Entry, name: string)
    requires InStep(s, w) && V.Sound(w) && Orderly(s, w, e) && e.mapId == 1
    ensures V.Admissible(w, A.Enter(e.conn, e.role, e.mapId, name, Point(e.place)))
  {
    assert V.Bindable(w, e.conn, e.role, 1);
    if R.Unused(w.net.log, e.conn) {
      R.FreshConnectionIsLossless(w, e.conn, e.role, 1, Point(e.place));
    } else {
      R.SameCellIsLossless(w, e.role, 1, Point(e.place));
    }
  }

  /** A coherent role reconnects where it is: in the scene, or at its row before its first entry. */
  lemma CoherentReconnect(s: State, w: A.World, r: int64)
    requires InStep(s, w) && Coherent(s, r) && r in s.roles
    ensures Exact(ReentryAt(s, r).place) && ReentryAt(s, r).mapId == 1
    ensures w.Holds(1, r) ==> Point(ReentryAt(s, r).place) == w.scenes[1].pos[r]
  {
    assert L.Settled(s, r) && PlacedAlike(s, w, r);
  }

  /** So for a coherent role only the connection matters. */
  lemma CoherentReconnectIsOrderly(s: State, w: A.World, c: int64, t: int64, r: int64)
    requires InStep(s, w) && Coherent(s, r) && Owns(s, t, r)
    requires var e := Entry(c, r, 1, ReentryAt(s, r).place);
             !s.locked && Exclusive(s, w, e) &&
             (R.Unused(w.net.log, c) || (r in w.lobby && w.lobby[r] == c && w.Holds(1, r)))
    ensures EntryOf(s, Reconnect(c, t, r)) == Some(Entry(c, r, 1, ReentryAt(s, r).place))
    ensures Orderly(s, w, Entry(c, r, 1, ReentryAt(s, r).place))
  {
    CoherentReconnect(s, w, r);
  }

  /**
   * Entering again, with EnterScene, puts a role at its row, which may be stale: on an unused connection that is
   * admissible exactly if the connection and role are not taken elsewhere and nobody connected who sees the
   * role where it is would lose sight of it.
   */
  lemma EnterAgainIff(s: State, w: A.World, c: int64, t: int64, r: int64, written: Written, name: string)
    requires InStep(s, w) && V.Sound(w) && Owns(s, t, r) && w.Holds(1, r) && R.Unused(w.net.log, c)
    ensures EntryOf(s, EnterScene(c, t, r, written)) == Some(Entry(c, r, 1, At(Vec(s.roles[r].x, s.roles[r].y))))
    ensures var row := Vec(s.roles[r].x, s.roles[r].y);
            V.Admissible(w, A.Enter(c, r, 1, name, row)) <==>
            && (forall q: int64 | q != r && q in w.roleConns :: w.roleConns[q] != c)
            && forall o | o in Neighbours(w.dims, w.scenes[1].pos, r) && A.Bound(w, c, r).Live(o) ::
                 Near(CellOf(w.dims, w.scenes[1].pos[o]), CellOf(w.dims, row))
  {
    var row := Vec(s.roles[r].x, s.roles[r].y);
    assert L.Settled(s, r);
    R.UnusedShowsNobody(w.net.log, c);
    assert forall k: int64 | w.Holds(k, r) :: k == 1;
    assert forall o | o in Neighbours(w.dims, w.scenes[1].pos, r) ::
      o in V.NewView(w, r, 1, row) <==> Near(CellOf(w.dims, w.scenes[1].pos[o]), CellOf(w.dims, row));
  }

  // ---------------------------------------------------------------------
  // Steps keep lobby and service in step, and views true
  // ---------------------------------------------------------------------

  /** What an accepted entry does to the lobby's state. */
  lemma EntryInLobby(s: State, ev: Event, e: Entry)
    requires L.InOrder(s) && Fair(s, ev) && EntryOf(s, ev) == Some(e)
    ensures e.mapId == 1 && e.role in s.roles && Next(s, ev).roles == s.roles
    ensures Next(s, ev).scenes == SceneEnter(s.scenes, e.role, 1, e.place)
    ensures e.conn in s.conns && Next(s, ev).conns.Keys == s.conns.Keys
    ensures Next(s, ev).conns == s.conns[e.conn := Next(s, ev).conns[e.conn]] && Next(s, ev).locked == s.locked
    ensures Next(s, ev).conns[e.conn].role == e.role
  {
    hide FloatOf, IntOf;
    assert L.Settled(s, e.role);
    if e.role in s.cache { L.ReadMap(s, e.role); }
  }

  /** What it does to the service's. */
  lemma EntryInService(w: A.World, e: Entry, name: string, w': A.World)
    requires w.dims.Ok() && w.scenes.Keys == {1} && e.mapId == 1 && Exact(e.place)
    requires A.Step(w, A.Enter(e.conn, e.role, e.mapId, name, Point(e.place)), w')
    ensures w'.dims == w.dims && w'.scenes.Keys == {1} && w'.scenes[1].pos == w.scenes[1].pos[e.role := Point(e.place)]
    ensures w'.lobby == A.Bound(w, e.conn, e.role).lobby && w'.roleConns == w.roleConns[e.role := e.conn]
  {}

  lemma EnteredAlike(s: State, s': State, w: A.World, w': A.World, e: Entry)
    requires InStep(s, w) && Exact(e.place) && Exclusive(s, w, e) && e.role in s.roles && e.conn in s.conns
    requires L.InOrder(s') && s'.roles == s.roles && s'.scenes == SceneEnter(s.scenes, e.role, 1, e.place)
    requires s'.conns.Keys == s.conns.Keys && s'.conns == s.conns[e.conn := s'.conns[e.conn]]
    requires s'.conns[e.conn].role == e.role
    requires w'.dims == w.dims && w'.scenes.Keys == {1} && w'.scenes[1].pos == w.scenes[1].pos[e.role := Point(e.place)]
    requires w'.lobby == A.Bound(w, e.conn, e.role).lobby && w'.roleConns == w.roleConns[e.role := e.conn]
    requires !s.locked && !s'.locked
    ensures InStep(s', w')
  {
    hide L.InOrder;
    forall r: int64 ensures PlacedAlike(s', w', r) {
      assert PlacedAlike(s, w, r);
    }
    forall r: int64, c: int64 ensures FoundAlike(s', w', r, c) {
      assert FoundAlike(s, w, r, c) && FoundAlike(s, w, r, e.conn);
    }
  }

  lemma EntryKeepsStep(s: State, ev: Event, w: A.World, w': A.World, e: Entry)
    requires InStep(s, w) && Fair(s, ev) && EntryOf(s, ev) == Some(e) && Exact(e.place) && Exclusive(s, w, e)
    requires EntryStep(s, ev, w, w') && !s.locked
    ensures InStep(Next(s, ev), w')
  {
    hide Next, L.InOrder, EntryOf;
    EntryInLobby(s, ev, e);
    EntryInService(w, e, s.roles[e.role].name, w');
    L.StepInOrder(s, ev);
    EnteredAlike(s, Next(s, ev), w, w', e);
  }

  lemma MoveChanges(w: A.World, r: int64, k: int64, p: Vec, now: int, l: A.Lists3, w': A.World)
    requires w.dims.Ok() && w.Holds(k, r) && r in w.scenes[k].shown && A.MoveWith(w, r, k, p, now, l, w')
    ensures w'.dims == w.dims && w'.lobby == w.lobby && w'.roleConns == w.roleConns
    ensures w'.scenes.Keys == w.scenes.Keys && w'.scenes[k].pos == w.scenes[k].pos[r := p]
  {
    hide A.Meet, A.Part, A.Broadcast, Lists, Entering, Neighbours, CellOf;
  }

  lemma MoveInService(w: A.World, r: int64, x: real, y: real, now: int, w': A.World)
    requires w.dims.Ok() && w.scenes.Keys == {1} && A.MoveStep(w, r, x, y, now, w')
    ensures w'.dims == w.dims && w'.scenes.Keys == {1} && w'.lobby == w.lobby && w'.roleConns == w.roleConns
    ensures if w.Holds(1, r) && M.Permits(w.lastMove, w.interval, r, now)
            then w'.scenes[1].pos == w.scenes[1].pos[r := Vec(ClampCoord(x), ClampCoord(y))]
            else w' == w
  {
    hide A.MoveWith, ClampCoord;
    if w.Holds(1, r) && M.Permits(w.lastMove, w.interval, r, now) {
      var k, l :| w.Holds(k, r) && r in w.scenes[k].shown
                  && A.MoveWith(w, r, k, Vec(ClampCoord(x), ClampCoord(y)), now, l, w');
      MoveChanges(w, r, k, Vec(ClampCoord(x), ClampCoord(y)), now, l, w');
    }
  }

  lemma MoveInLobby(s: State, r: int64, m: int64, x: real, y: real, allowed: bool, reached: bool, t: Written)
    requires L.InOrder(s) && Fair(s, Move(r, m, x, y, allowed, reached, t))
    ensures var s' := MovedTo(s, r, m, x, y, allowed, reached, t);
            && s'.conns == s.conns && s'.roles == s.roles && s'.locked == s.locked
            && s'.scenes == if L.In1(s, r) && allowed
                            then SceneEnter(s.scenes, r, 1, At(Vec(ClampCoord(x), ClampCoord(y)))) else s.scenes
  {
    hide L.RolesInOrder, L.Entitled, L.Settled;
  }

  lemma MovedAlike(s: State, s': State, w: A.World, w': A.World, r: int64, p: Vec)
    requires InStep(s, w) && L.InOrder(s') && L.In1(s, r)
    requires s'.conns == s.conns && s'.roles == s.roles && s'.scenes == SceneEnter(s.scenes, r, 1, At(p))
    requires s'.locked == s.locked && w'.dims == w.dims && w'.lobby == w.lobby && w'.roleConns == w.roleConns
    requires w'.scenes.Keys == {1} && w'.scenes[1].pos == w.scenes[1].pos[r := p]
    ensures InStep(s', w')
  {
    hide L.InOrder;
    forall q: int64 ensures PlacedAlike(s', w', q) {
      assert PlacedAlike(s, w, q);
    }
    forall q: int64, c: int64 | !s.locked ensures FoundAlike(s', w', q, c) {
      assert FoundAlike(s, w, q, c);
    }
  }

  lemma MoveKeepsStep(s: State, r: int64, m: int64, x: real, y: real, allowed: bool, reached: bool, t: Written,
                      w: A.World, w': A.World)
    requires InStep(s, w) && V.Sound(w) && Fair(s, Move(r, m, x, y, allowed, reached, t))
    requires ServiceStep(s, Move(r, m, x, y, allowed, reached, t), w, w')
    ensures InStep(MovedTo(s, r, m, x, y, allowed, reached, t), w') && V.Sound(w')
  {
    hide L.InOrder, V.Sound, MovedTo, A.MoveStep;
    GetsThrough(s, r, m, x, y, allowed, reached, t, w, w');
    var s' := MovedTo(s, r, m, x, y, allowed, reached, t);
    var now :| (allowed <==> M.Permits(w.lastMove, w.interval, r, now)) && A.MoveStep(w, r, x, y, now, w');
    L.MoveKeeps(s, r, m, x, y, allowed, reached, t);
    V.StepKeeps(w, A.Move(r, x, y, now), w');
    MoveInLobby(s, r, m, x, y, allowed, reached, t);
    MoveInService(w, r, x, y, now, w');
    assert PlacedAlike(s, w, r);
    if L.In1(s, r) && allowed {
      MovedAlike(s, s', w, w', r, Vec(ClampCoord(x), ClampCoord(y)));
    } else {
      SameInStep(s, s', w);
    }
  }

  /** The service has a connection for everybody in the scene, so no move has to look for one in the table. */
  lemma GetsThrough(s: State, r: int64, m: int64, x: real, y: real, allowed: bool, reached: bool, t: Written,
                    w: A.World, w': A.World)
    requires InStep(s, w) && ServiceStep(s, Move(r, m, x, y, allowed, reached, t), w, w')
    ensures reached
  {
    hide L.InOrder, A.MoveStep;
    forall q: int64 | w.Holds(1, q) ensures q in w.roleConns {
      assert PlacedAlike(s, w, q);
    }
  }

  /** The call for scene 0 is without effect. */
  lemma GoneIsUnbound(w: A.World, c: int64, role: int64, leaves: bool, w': A.World)
    requires w.dims.Ok() && w.scenes.Keys == {1} && GoneStep(w, c, role, leaves, w')
    ensures w' == Unbound(w, c)
  {}

  lemma UnboundKeeps(w: A.World, c: int64)
    requires V.Sound(w)
    ensures V.Sound(Unbound(w, c))
  {
    var w' := Unbound(w, c);
    forall k, r: int64 ensures w'.Holds(k, r) <==> w.Holds(k, r) {}
    forall q: int64, r: int64 ensures V.Apart(w', q, r) { assert V.Apart(w, q, r); }
    forall k, r: int64 | w'.Holds(k, r) && w'.Live(r) ensures V.SeesTruly(w', k, r) {
      assert w.Holds(k, r) && w.Live(r) && V.SeesTruly(w, k, r);
    }
  }

  /** Steps in which the lobby at most lets go of a connection, and the service hears of no more. */
  lemma UnboundInStep(s: State, s': State, w: A.World, c: int64)
    requires InStep(s, w) && L.InOrder(s') && s'.scenes == s.scenes && s'.roles.Keys == s.roles.Keys
    requires s.locked ==> s'.locked
    requires s'.locked || forall k: int64, r: int64 | r > 0 :: Plays(s', k, r) <==> k != c && Plays(s, k, r)
    ensures InStep(s', Unbound(w, c))
  {
    hide L.InOrder;
    var w' := Unbound(w, c);
    forall r: int64 ensures PlacedAlike(s', w', r) {
      assert PlacedAlike(s, w, r);
    }
    forall r: int64, k: int64 | !s'.locked ensures FoundAlike(s', w', r, k) {
      assert FoundAlike(s, w, r, k) && FoundAlike(s, w, r, c);
    }
  }

  lemma SameInStep(s: State, s': State, w: A.World)
    requires InStep(s, w) && L.InOrder(s') && s'.scenes == s.scenes && (forall r | r in s'.roles :: r > 0)
    requires s'.locked == s.locked && forall k: int64, r: int64 | r > 0 :: Plays(s', k, r) <==> Plays(s, k, r)
    ensures InStep(s', w)
  {
    hide L.InOrder;
    forall r: int64 ensures PlacedAlike(s', w, r) {
      assert PlacedAlike(s, w, r);
    }
    forall r: int64, k: int64 | !s.locked ensures FoundAlike(s', w, r, k) {
      assert FoundAlike(s, w, r, k);
    }
  }

  lemma LogoutLetsGo(s: State, c: int64, t: int64)
    requires L.InOrder(s) && 0 !in s.scenes && c in s.conns && t in s.sessions
    ensures LoggedOut(s, c, t).scenes == s.scenes && LoggedOut(s, c, t).locked == s.locked
    ensures LoggedOut(s, c, t).roles.Keys == s.roles.Keys
    ensures forall k: int64, r: int64 | r > 0 :: Plays(LoggedOut(s, c, t), k, r) <==> k != c && Plays(s, k, r)
  {
    L.SignOffStays(s, c, t);
    L.SignOffKeeps(s, s.conns[c].role);
    hide L.InOrder, SignedOff;
  }

  lemma LogoutKeepsStep(s: State, c: int64, t: int64, w: A.World, w': A.World)
    requires InStep(s, w) && V.Sound(w) && c in s.conns && ServiceStep(s, Logout(c, t), w, w')
    ensures InStep(LoggedOut(s, c, t), w') && V.Sound(w')
  {
    if t in s.sessions {
      hide V.Sound, LoggedOut, GoneStep;
      GoneIsUnbound(w, c, s.conns[c].role, s.conns[c].role > 0, w');
      UnboundKeeps(w, c);
      L.LogoutKeeps(s, c, t);
      LogoutLetsGo(s, c, t);
      hide L.InOrder, ServiceStep;
      UnboundInStep(s, LoggedOut(s, c, t), w, c);
    }
  }

  lemma TimeoutKeepsStep(s: State, c: int64, w: A.World, w': A.World)
    requires InStep(s, w) && V.Sound(w) && c in s.conns && !s.locked && ServiceStep(s, Timeout(c), w, w')
    ensures InStep(TimedOut(s, c), w') && V.Sound(w')
  {
    var conn := s.conns[c];
    if conn.state == Auth || conn.state == InScene {
      GoneIsUnbound(w, c, conn.role, conn.role > 0 && conn.state == InScene, w');
      UnboundKeeps(w, c);
      L.TimeoutKeeps(s, c);
      L.SignOffStays(s, c, 0);
      L.SignOffKeeps(s, conn.role);
      hide L.InOrder, V.Sound, SignedOff, ServiceStep;
      UnboundInStep(s, TimedOut(s, c), w, c);
    }
  }

  lemma EntryTogether(s: State, ev: Event, w: A.World, w': A.World, e: Entry)
    requires InStep(s, w) && V.Sound(w) && Fair(s, ev) && EntryOf(s, ev) == Some(e) && EntryStep(s, ev, w, w')
    requires Orderly(s, w, e)
    ensures InStep(Next(s, ev), w') && V.Sound(w')
  {
    hide Next, L.InOrder, V.Sound, EntryOf;
    EntryInLobby(s, ev, e);
    OrderlyIsAdmissible(s, w, e, s.roles[e.role].name);
    V.StepKeeps(w, A.Enter(e.conn, e.role, e.mapId, s.roles[e.role].name, Point(e.place)), w');
    EntryKeepsStep(s, ev, w, w', e);
  }

  /** Every step of the lobby whose entries are orderly keeps lobby and service in step and all views true. */
  lemma StepTogether(s: State, ev: Event, w: A.World, w': A.World)
    requires InStep(s, w) && V.Sound(w) && Fair(s, ev) && ServiceStep(s, ev, w, w')
    requires forall e | EntryOf(s, ev) == Some(e) :: Orderly(s, w, e)
    ensures InStep(Next(s, ev), w') && V.Sound(w')
  {
    L.StepInOrder(s, ev);
    hide L.InOrder, V.Sound, InStep, LoggedOut, TimedOut, MovedTo, Orderly, EntryStep;
    match EntryOf(s, ev)
    case Some(e) =>
      EntryTogether(s, ev, w, w', e);
    case None =>
      match ev
      case Move(r, m, x, y, allowed, reached, t) => MoveKeepsStep(s, r, m, x, y, allowed, reached, t, w, w');
      case Logout(c, t) => LogoutKeepsStep(s, c, t, w, w');
      case Timeout(c) => if !s.locked { TimeoutKeepsStep(s, c, w, w'); }
      case _ => QuietTogether(s, ev, w, w');
  }

  /** Steps that do not touch anybody's place. */
  lemma QuietTogether(s: State, ev: Event, w: A.World, w': A.World)
    requires InStep(s, w) && V.Sound(w) && Fair(s, ev) && ServiceStep(s, ev, w, w') && L.InOrder(Next(s, ev))
    requires EntryOf(s, ev) == None && !ev.Move? && !ev.Logout? && !ev.Timeout?
    ensures InStep(Next(s, ev), w') && V.Sound(w')
  {
    hide L.InOrder, V.Sound, InStep;
    if ev.Disconnect? {
      if !s.locked {
        UnboundKeeps(w, ev.conn);
        UnboundInStep(s, Next(s, ev), w, ev.conn);
      }
    } else {
      if ev.Sync? {
        SyncLeaves(s, w, ev.role);
      } else {
        PositiveRoles(s, ev, w);
      }
      SameInStep(s, Next(s, ev), w);
    }
  }

  lemma SyncLeaves(s: State, w: A.World, r: int64)
    requires InStep(s, w)
    ensures Synced(s, r).scenes == s.scenes && Synced(s, r).conns == s.conns
    ensures forall q | q in Synced(s, r).roles :: q > 0
  {
    L.SyncKeeps(s, r);
  }

  lemma PositiveRoles(s: State, ev: Event, w: A.World)
    requires InStep(s, w) && Fair(s, ev) && EntryOf(s, ev) == None
    requires !ev.Move? && !ev.Logout? && !ev.Timeout? && !ev.Disconnect? && !ev.Sync?
    ensures forall q | q in Next(s, ev).roles :: q > 0
    ensures Next(s, ev).scenes == s.scenes && Next(s, ev).locked == s.locked
    ensures forall k: int64, r: int64 | r > 0 :: Plays(Next(s, ev), k, r) <==> Plays(s, k, r)
  {
    hide L.InOrder;
  }

  // ---------------------------------------------------------------------
  // Runs
  // ---------------------------------------------------------------------

  /** Lobby and service as they start. */
  ghost predicate Initial(s: State, w: A.World) {
    L.Initial(s) && V.Initial(w) && w.scenes.Keys == {1}
  }

  ghost predicate Run(states: seq<State>, worlds: seq<A.World>, evs: seq<Event>) {
    && |states| == |worlds| == |evs| + 1 && Initial(states[0], worlds[0])
    && (forall i | 0 <= i < |worlds| :: worlds[i].dims.Ok())
    && (forall i | 0 <= i < |evs| :: Fair(states[i], evs[i]) && states[i + 1] == Next(states[i], evs[i]))
    && forall i | 0 <= i < |evs| :: ServiceStep(states[i], evs[i], worlds[i], worlds[i + 1])
  }

  /**
   * Safety of lobby and service together: over every run whose entries are orderly, both have every role
   * at the same place, and each client whose connection plays a role sees exactly the players around it.
   */
  lemma {:induction false} LobbyRunsKeepViews(states: seq<State>, worlds: seq<A.World>, evs: seq<Event>, n: nat)
    requires Run(states, worlds, evs) && n < |states|
    requires forall i, e | 0 <= i < n && EntryOf(states[i], evs[i]) == Some(e) :: Orderly(states[i], worlds[i], e)
    ensures InStep(states[n], worlds[n]) && V.Sound(worlds[n])
  {
    if n == 0 {
      StartsTogether(states[0], worlds[0]);
    } else {
      LobbyRunsKeepViews(states, worlds, evs, n - 1);
      StepTogether(states[n - 1], evs[n - 1], worlds[n - 1], worlds[n]);
    }
  }

  /**
   * So over these runs, whatever a sweep has locked, every move reaches the cache, and cache and scene hold the
   * last accepted position of every role.
   */
  lemma {:induction false} OrderlyRunsFollow(states: seq<State>, worlds: seq<A.World>, evs: seq<Event>, n: nat,
                                               r: int64)
    requires Run(states, worlds, evs) && n < |states|
    requires forall i, e | 0 <= i < n && EntryOf(states[i], evs[i]) == Some(e) :: Orderly(states[i], worlds[i], e)
    ensures forall i | 0 <= i < n && evs[i].Move? :: evs[i].reached
    ensures P.Followed(states[n], r)
  {
    hide Next, Fair, P.Followed, V.Sound, InStep, Orderly, EntryOf, ServiceStep;
    if n == 0 {
      P.StartsFollowed(states, evs, r);
    } else {
      OrderlyRunsFollow(states, worlds, evs, n - 1, r);
      LobbyRunsKeepViews(states, worlds, evs, n - 1);
      StepFollows(states[n - 1], evs[n - 1], worlds[n - 1], worlds[n], r);
    }
  }

  lemma StepFollows(s: State, ev: Event, w: A.World, w': A.World, r: int64)
    requires InStep(s, w) && Fair(s, ev) && ServiceStep(s, ev, w, w') && P.Followed(s, r)
    ensures (ev.Move? ==> ev.reached) && P.Followed(Next(s, ev), r)
  {
    assert L.InOrder(s);
    hide Next, Fair, P.Followed, L.InOrder, InStep, ServiceStep;
    if ev.Move? {
      GetsThrough(s, ev.role, ev.mapId, ev.x, ev.y, ev.allowed, ev.reached, ev.written, w, w');
    }
    P.StepFollowed(s, ev, r);
  }

  lemma StartsTogether(s: State, w: A.World)
    requires Initial(s, w)
    ensures InStep(s, w) && V.Sound(w)
  {
    L.RunInOrder([s], [], 0);
    V.ViewsAreTrue([w], [], 0);
    forall r: int64 ensures PlacedAlike(s, w, r) {}
    forall r: int64, c: int64 ensures FoundAlike(s, w, r, c) {}
  }
}
