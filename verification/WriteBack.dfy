/** When positions survive logging out, and the agreement of scene, cache and database. */
module WriteBack {
  import opened GoTypes
  import opened Geometry
  import opened RedisText
  import opened LobbyModel
  import opened LobbyRuns
  import opened Positions

  /** Neither coordinate is a whole number: the positions that come back from the cache. */
  predicate Fractional(v: Vec) {
    !IsWhole(v.x) && !IsWhole(v.y)
  }

  function At(v: Vec): Place {
    Place(Some(v.x), Some(v.y))
  }

  /** The database holds v as the position of r. */
  predicate Stored(s: State, r: int64, v: Vec) {
    r in s.roles && s.roles[r].x == v.x && s.roles[r].y == v.y
  }

  // ---------------------------------------------------------------------
  // When a position survives
  // ---------------------------------------------------------------------

  /**
   * What signing off saves is what is cached, and only if neither coordinate of that is whole: a whole coordinate
   * is cached without a point, reads back as no number, and then nothing is written. So the database holds
   * the position last accepted afterwards exactly if that is what is saved, or nothing is and it held it already.
   */
  lemma SavedIff(s: State, r: int64)
    requires InOrder(s) && r in s.last
    ensures Stored(SignedOff(s, r), r, s.last[r]) <==>
            if r in s.cache && Fractional(CachedAt(s, r)) then CachedAt(s, r) == s.last[r] else Stored(s, r, s.last[r])
  {
    if r in s.cache { ReadBack(s, r); }
  }

  /** Of a role whose accepted moves were cached: exactly if neither coordinate is whole or it was stored already. */
  lemma FollowedSavedIff(s: State, r: int64)
    requires InOrder(s) && In1(s, r) && Followed(s, r)
    ensures r in s.last
    ensures Stored(SignedOff(s, r), r, s.last[r]) <==>
            (r in s.cache && Fractional(s.last[r])) || Stored(s, r, s.last[r])
  {
    assert Settled(s, r);
    SavedIff(s, r);
  }

  /** Reconnecting puts a cached role where it was last accepted exactly if that is cached with no whole coordinate. */
  lemma ReconnectIff(s: State, c: int64, t: int64, r: int64)
    requires InOrder(s) && c in s.conns && Owns(s, t, r) && r in s.cache
    ensures r in s.last && In1(Reconnected(s, c, t, r), r)
    ensures Reconnected(s, c, t, r).scenes[1][r] == At(s.last[r]) <==>
            CachedAt(s, r) == s.last[r] && Fractional(CachedAt(s, r))
  {
    ReadBack(s, r);
  }

  /** So a new role, created at (100, 100), that enters and reconnects is in its scene at no position at all. */
  lemma NewRoleLosesPosition(s: State, c: int64, t: int64, r: int64, w: Written)
    requires InOrder(s) && c in s.conns && Owns(s, t, r) && Stored(s, r, Vec(100.0, 100.0)) && Writes(w, 100.0, 100.0)
    ensures var again := Reconnected(Entered(s, c, t, r, w), c, t, r);
            In1(again, r) && again.scenes[1][r] == Place(None, None)
  {
    assert Settled(s, r);
    CachedReads(Entered(s, c, t, r, w).cache, r, 100.0, 100.0);
  }

  // ---------------------------------------------------------------------
  // Logging out, and entering again later
  // ---------------------------------------------------------------------

  /** r signs off: its connection logs out or times out. */
  predicate SignsOff(s: State, ev: Event, r: int64) {
    match ev
    case Logout(c, t) => t in s.sessions && c in s.conns && s.conns[c].role == r && r > 0
    case Timeout(c) => !s.locked && c in s.conns && s.conns[c].state == InScene && s.conns[c].role == r && r > 0
    case _ => false
  }

  /** The role itself enters, reconnects or moves. */
  predicate Concerns(ev: Event, r: int64) {
    match ev
    case EnterScene(_, _, q, _) => q == r
    case Reconnect(_, _, q) => q == r
    case Move(q, _, _, _, _, _, _) => q == r
    case _ => false
  }

  /** Whatever everybody else does, the row of a role that is not cached stays as it is. */
  lemma RowStays(s: State, ev: Event, r: int64)
    requires InOrder(s) && Fair(s, ev) && !Concerns(ev, r) && r in s.roles && r !in s.cache
    ensures r !in Next(s, ev).cache && r in Next(s, ev).roles && Next(s, ev).roles[r] == s.roles[r]
  {
    hide InOrder, GetPosition, SignedOff, Synced, NameTaken, RolesOf, Entered, Reconnected, MovedTo, Writes;
    match ev
    case Sync(q) => OthersRowStays(s, q, r);
    case Logout(c, t) => OthersRowStays(s, s.conns[c].role, r);
    case Timeout(c) => OthersRowStays(s, s.conns[c].role, r);
    case EnterScene(c, t, q, w) => EntryLeavesRow(s, c, t, q, w, r);
    case Reconnect(c, t, q) => ReconnectLeavesRow(s, c, t, q, r);
    case Move(q, m, x, y, allowed, reached, w) => MoveLeavesRow(s, q, m, x, y, allowed, reached, w, r);
    case _ =>
  }

  lemma EntryLeavesRow(s: State, c: int64, t: int64, q: int64, w: Written, r: int64)
    requires q != r && c in s.conns && r !in s.cache
    ensures Entered(s, c, t, q, w).roles == s.roles && r !in Entered(s, c, t, q, w).cache
  {
    hide SceneEnter;
  }

  lemma ReconnectLeavesRow(s: State, c: int64, t: int64, q: int64, r: int64)
    requires c in s.conns && r !in s.cache
    ensures Reconnected(s, c, t, q).roles == s.roles && r !in Reconnected(s, c, t, q).cache
  {
    hide GetPosition, SceneEnter;
  }

  lemma MoveLeavesRow(s: State, q: int64, m: int64, x: real, y: real, allowed: bool, reached: bool, w: Written,
                      r: int64)
    requires q != r && r !in s.cache
    ensures MovedTo(s, q, m, x, y, allowed, reached, w).roles == s.roles
    ensures r !in MovedTo(s, q, m, x, y, allowed, reached, w).cache
  {
    hide SceneEnter, ClampCoord;
  }

  lemma OthersRowStays(s: State, q: int64, r: int64)
    requires r in s.roles && r !in s.cache
    ensures r in Synced(s, q).roles && Synced(s, q).roles[r] == s.roles[r] && r !in Synced(s, q).cache
    ensures r in SignedOff(s, q).roles && SignedOff(s, q).roles[r] == s.roles[r] && r !in SignedOff(s, q).cache
  {
    hide FloatOf, IntOf;
  }

  lemma {:induction false} RowStaysInRun(states: seq<State>, evs: seq<Event>, i: nat, n: nat, r: int64)
    requires Run(states, evs) && i <= n < |states| && r in states[i].roles && r !in states[i].cache
    requires forall k | i <= k < n :: !Concerns(evs[k], r)
    ensures r !in states[n].cache && r in states[n].roles && states[n].roles[r] == states[i].roles[r]
  {
    if i == n {
    } else {
      RowStaysInRun(states, evs, i, n - 1, r);
      RunInOrder(states, evs, n - 1);
      RowStays(states[n - 1], evs[n - 1], r);
    }
  }

  lemma AfterSignOff(s: State, ev: Event, r: int64)
    requires InOrder(s) && Fair(s, ev) && SignsOff(s, ev, r)
    ensures Next(s, ev).roles == SignedOff(s, r).roles && Next(s, ev).cache == SignedOff(s, r).cache
  {
    hide InOrder, SavedRoles;
  }

  /**
   * A role that signs off at step i of a run and enters again at step j, with anything but its own entries and
   * moves in between, is put where it was last accepted if and only if that position was cached with no whole
   * coordinate, or no such position was cached and it was in the database already.
   */
  lemma LogoutThenEnter(states: seq<State>, evs: seq<Event>, i: nat, j: nat, r: int64)
    requires Run(states, evs) && i < j < |evs|
    requires SignsOff(states[i], evs[i], r) && In1(states[i], r)
    requires forall k | i < k < j :: !Concerns(evs[k], r)
    requires evs[j].EnterScene? && evs[j].role == r && Owns(states[j], evs[j].token, r)
    ensures r in states[i].last && In1(states[j + 1], r)
    ensures states[j + 1].scenes[1][r] == At(states[i].last[r]) <==>
            if r in states[i].cache && Fractional(CachedAt(states[i], r))
            then CachedAt(states[i], r) == states[i].last[r] else Stored(states[i], r, states[i].last[r])
  {
    var s := states[i];
    hide Entered, Next, SignedOff, RolesInOrder, Entitled;
    RunInOrder(states, evs, i);
    assert Settled(s, r);
    AfterSignOff(s, evs[i], r);
    SavedIff(s, r);
    SignOffKeeps(s, r);
    RowStaysInRun(states, evs, i + 1, j, r);
    RunInOrder(states, evs, j);
    assert Settled(states[j], r);
    EnteredAtRow(states[j], evs[j], r);
  }

  /**
   * If its accepted moves so far were cached, which only a locked table can keep them from, that is: exactly if
   * the position was cached with no whole coordinate, or was in the database already.
   */
  lemma CachedLogoutThenEnter(states: seq<State>, evs: seq<Event>, i: nat, j: nat, r: int64)
    requires Run(states, evs) && i < j < |evs|
    requires SignsOff(states[i], evs[i], r) && In1(states[i], r)
    requires forall k | 0 <= k < i :: Reaches(states[k], evs[k], r)
    requires forall k | i < k < j :: !Concerns(evs[k], r)
    requires evs[j].EnterScene? && evs[j].role == r && Owns(states[j], evs[j].token, r)
    ensures r in states[i].last && In1(states[j + 1], r)
    ensures states[j + 1].scenes[1][r] == At(states[i].last[r]) <==>
            (r in states[i].cache && Fractional(states[i].last[r])) || Stored(states[i], r, states[i].last[r])
  {
    hide Next, InOrder, Reaches, SignsOff;
    StartsFollowed(states, evs, r);
    RunFollowed(states, evs, 0, i, r);
    LogoutThenEnter(states, evs, i, j, r);
  }

  lemma EnteredAtRow(s: State, ev: Event, r: int64)
    requires AllSettled(s) && Fair(s, ev) && ev.EnterScene? && ev.role == r && Owns(s, ev.token, r)
    ensures In1(Next(s, ev), r) && Next(s, ev).scenes[1][r] == At(Vec(s.roles[r].x, s.roles[r].y))
  {
    assert Settled(s, r);
  }

  // ---------------------------------------------------------------------
  // Coherence
  // ---------------------------------------------------------------------

  /**
   * For r, scene, cache and database agree: the cached position if there is one, else the stored one, is the
   * scene's.
   */
  ghost predicate Coherent(s: State, r: int64) {
    In1(s, r) ==>
      && r in s.last && s.scenes[1][r] == At(s.last[r])
      && if r in s.cache then GetPosition(s.cache, r) == Some(Found(At(s.last[r]), 1)) else Stored(s, r, s.last[r])
  }

  /**
   * What r itself has written in this step, by an entry at its row or an accepted move, has no whole coordinate;
   * and the move reaches the cache, which only a locked table can keep it from.
   */
  predicate WritesFractions(s: State, ev: Event, r: int64) {
    match ev
    case EnterScene(_, t, q, _) => q == r && Owns(s, t, r) ==> Fractional(Vec(s.roles[r].x, s.roles[r].y))
    case Move(q, m, x, y, allowed, reached, _) =>
      q == r && allowed && r in SceneAt(s.scenes, m) ==> reached && Fractional(Vec(ClampCoord(x), ClampCoord(y)))
    case _ => true
  }

  /** From any state, an accepted move that is cached makes the role coherent if and only if no coordinate is whole. */
  lemma MoveCoheresIff(s: State, r: int64, m: int64, x: real, y: real, w: Written)
    requires InOrder(s) && r in SceneAt(s.scenes, m) && Writes(w, ClampCoord(x), ClampCoord(y))
    ensures Coherent(MovedTo(s, r, m, x, y, true, true, w), r) <==> Fractional(Vec(ClampCoord(x), ClampCoord(y)))
  {
    hide RolesInOrder, Entitled, Settled, GetPosition, Writes, ClampCoord;
    CachedReads(MovedTo(s, r, m, x, y, true, true, w).cache, r, ClampCoord(x), ClampCoord(y));
  }

  /** From any state, an entry makes the role coherent if and only if no coordinate of its row is whole. */
  lemma EnterCoheresIff(s: State, c: int64, t: int64, r: int64, w: Written)
    requires InOrder(s) && c in s.conns && Owns(s, t, r) && Writes(w, s.roles[r].x, s.roles[r].y)
    ensures Coherent(Entered(s, c, t, r, w), r) <==> Fractional(Vec(s.roles[r].x, s.roles[r].y))
  {
    hide RolesInOrder, Entitled, GetPosition, Writes;
    assert Settled(s, r);
    CachedReads(Entered(s, c, t, r, w).cache, r, s.roles[r].x, s.roles[r].y);
  }

  lemma SameCoheres(s: State, s': State, r: int64)
    requires Coherent(s, r) && SameFor(s, s', r)
    ensures Coherent(s', r)
  {
    hide FloatOf, IntOf;
  }

  lemma EnterCoheres(s: State, c: int64, t: int64, q: int64, w: Written, r: int64)
    requires InOrder(s) && Coherent(s, r) && c in s.conns && (Owns(s, t, q) ==> Writes(w, s.roles[q].x, s.roles[q].y))
    requires q == r && Owns(s, t, r) ==> Fractional(Vec(s.roles[r].x, s.roles[r].y))
    ensures Coherent(Entered(s, c, t, q, w), r)
  {
    if q == r && Owns(s, t, r) {
      EnterCoheresIff(s, c, t, r, w);
    } else {
      hide GetPosition, Coherent;
      SameCoheres(s, Entered(s, c, t, q, w), r);
    }
  }

  lemma ReconnectCoheres(s: State, c: int64, t: int64, q: int64, r: int64)
    requires InOrder(s) && Coherent(s, r) && c in s.conns
    ensures Coherent(Reconnected(s, c, t, q), r)
  {
    hide FloatOf, IntOf, RolesInOrder, Entitled, Writes;
    assert Settled(s, q) && Settled(s, r);
    if q in s.cache { ReadMap(s, q); }
  }

  lemma MoveCoheres(s: State, q: int64, m: int64, x: real, y: real, allowed: bool, reached: bool, w: Written, r: int64)
    requires InOrder(s) && Coherent(s, r) && Writes(w, ClampCoord(x), ClampCoord(y))
    requires q == r && allowed && r in SceneAt(s.scenes, m) ==>
               reached && Fractional(Vec(ClampCoord(x), ClampCoord(y)))
    ensures Coherent(MovedTo(s, q, m, x, y, allowed, reached, w), r)
  {
    hide InOrder, Coherent, MovedTo, Fractional, Writes;
    if q == r && allowed && r in SceneAt(s.scenes, m) {
      MoveCoheresIff(s, r, m, x, y, w);
    } else {
      MoveLeaves(s, q, m, x, y, allowed, reached, w, r);
      SameCoheres(s, MovedTo(s, q, m, x, y, allowed, reached, w), r);
    }
  }

  /** Writing q's position back, or signing q off, leaves the position of r where it is to be found. */
  lemma SyncCoheres(s: State, q: int64, r: int64)
    requires InOrder(s) && Coherent(s, r)
    ensures Coherent(Synced(s, q), r) && Coherent(SignedOff(s, q), r)
  {
    SyncKeeps(s, q);
    SignOffKeeps(s, q);
    assert Settled(s, q) && Settled(s, r);
    if q in s.cache { ReadMap(s, q); }
  }

  /** Coherence is a matter of the role's state alone. */
  lemma ConnsOnlyCoheres(s: State, s': State, r: int64)
    requires Coherent(s, r)
    requires s' == s.(accounts := s'.accounts, sessions := s'.sessions, conns := s'.conns, locked := s'.locked)
    ensures Coherent(s', r)
  {}

  lemma LogoutCoheres(s: State, c: int64, t: int64, r: int64)
    requires InOrder(s) && Coherent(s, r) && c in s.conns
    ensures Coherent(LoggedOut(s, c, t), r)
  {
    hide Coherent, SignedOff;
    SyncCoheres(s, s.conns[c].role, r);
    var off := if t in s.sessions && s.conns[c].role > 0 then SignedOff(s, s.conns[c].role) else s;
    ConnsOnlyCoheres(off, LoggedOut(s, c, t), r);
  }

  lemma TimeoutCoheres(s: State, c: int64, r: int64)
    requires InOrder(s) && Coherent(s, r) && c in s.conns
    ensures Coherent(TimedOut(s, c), r)
  {
    hide Coherent, SignedOff;
    var conn := s.conns[c];
    SyncCoheres(s, conn.role, r);
    var off := if conn.role > 0 && conn.state == InScene then SignedOff(s, conn.role) else s;
    ConnsOnlyCoheres(off, TimedOut(s, c), r);
  }

  lemma CreateCoheres(s: State, t: int64, name: string, q: int64, r: int64)
    requires InOrder(s) && Coherent(s, r) && q !in s.roles
    ensures Coherent(Created(s, t, name, q), r)
  {
    hide GetPosition;
    assert Settled(s, r);
  }

  /** Whatever the step, a coherent role stays coherent if only its own entries and moves have no whole coordinate. */
  lemma StepCoherent(s: State, ev: Event, r: int64)
    requires InOrder(s) && Coherent(s, r) && Fair(s, ev) && WritesFractions(s, ev, r)
    ensures Coherent(Next(s, ev), r)
  {
    hide InOrder, Coherent, Created, Entered, Reconnected, MovedTo, LoggedOut, TimedOut, Synced, SignedOff;
    match ev
    case CreateRole(t, name, q) => CreateCoheres(s, t, name, q, r);
    case EnterScene(c, t, q, w) => EnterCoheres(s, c, t, q, w, r);
    case Reconnect(c, t, q) => ReconnectCoheres(s, c, t, q, r);
    case Move(q, m, x, y, allowed, reached, w) => MoveCoheres(s, q, m, x, y, allowed, reached, w, r);
    case Sync(q) => SyncCoheres(s, q, r);
    case Logout(c, t) => LogoutCoheres(s, c, t, r);
    case Timeout(c) => TimeoutCoheres(s, c, r);
    case _ => ConnsOnlyCoheres(s, Next(s, ev), r);
  }

  /**
   * Write-back coherence of one role, from any point of any run on and whatever the others do: as long as
   * its own entries and accepted moves have no whole coordinate, the cached position, or the stored one
   * if none is cached, is its position in the scene. It holds before the first entry.
   */
  lemma {:induction false} RunCoherent(states: seq<State>, evs: seq<Event>, i: nat, n: nat, r: int64)
    requires Run(states, evs) && i <= n < |states| && Coherent(states[i], r)
    requires forall k | i <= k < n :: WritesFractions(states[k], evs[k], r)
    ensures Coherent(states[n], r)
  {
    hide Next, Coherent, WritesFractions, InOrder;
    if i == n {
    } else {
      RunCoherent(states, evs, i, n - 1, r);
      RunInOrder(states, evs, n - 1);
      StepCoherent(states[n - 1], evs[n - 1], r);
    }
  }

  /** In particular from its first accepted move without a whole coordinate on, wherever it was created. */
  lemma CoherentFromMove(states: seq<State>, evs: seq<Event>, i: nat, n: nat, r: int64)
    requires Run(states, evs) && i < n < |states|
    requires evs[i].Move? && evs[i].role == r && evs[i].allowed && r in SceneAt(states[i].scenes, evs[i].mapId)
    requires forall k | i <= k < n :: WritesFractions(states[k], evs[k], r)
    ensures Coherent(states[n], r)
  {
    var ev := evs[i];
    RunInOrder(states, evs, i);
    MoveCoheresIff(states[i], r, ev.mapId, ev.x, ev.y, ev.written);
    RunCoherent(states, evs, i + 1, n, r);
  }
}
