/** When cache and scene hold the position a role was last accepted at. */
module Positions {
  import opened GoTypes
  import opened Geometry
  import opened RedisText
  import opened LobbyModel
  import opened LobbyRuns

  /** A coordinate of a scene is the number last accepted, or, if that is whole, may be lost. */
  ghost predicate IsOrLost(c: Coord, v: real) {
    c == Some(v) || (c == None && IsWhole(v))
  }

  /** For a role in the scene, the scene has the position last accepted, and so has the cache, if it has any. */
  ghost predicate Followed(s: State, r: int64) {
    In1(s, r) && r in s.last ==>
      && IsOrLost(s.scenes[1][r].x, s.last[r].x) && IsOrLost(s.scenes[1][r].y, s.last[r].y)
      && (r in s.cache ==> CachedAt(s, r) == s.last[r])
  }

  /** If r itself is moved in this step, the move reaches the cache. */
  predicate Reaches(s: State, ev: Event, r: int64) {
    match ev
    case Move(q, m, _, _, allowed, reached, _) => q == r && allowed && r in SceneAt(s.scenes, m) ==> reached
    case _ => true
  }

  /** A step that leaves alone what is known of r. */
  ghost predicate SameFor(s: State, s': State, r: int64) {
    && (In1(s', r) <==> In1(s, r)) && (In1(s, r) ==> s'.scenes[1][r] == s.scenes[1][r])
    && (r in s'.last <==> r in s.last) && (r in s.last ==> s'.last[r] == s.last[r])
    && (r in s'.cache <==> r in s.cache) && (r in s.cache ==> s'.cache[r] == s.cache[r])
    && (r in s.roles ==> r in s'.roles && s'.roles[r] == s.roles[r])
  }

  lemma MoveLeaves(s: State, q: int64, m: int64, x: real, y: real, allowed: bool, reached: bool, w: Written, r: int64)
    requires !(q == r && allowed && r in SceneAt(s.scenes, m))
    ensures SameFor(s, MovedTo(s, q, m, x, y, allowed, reached, w), r)
  {
    hide ClampCoord;
  }

  lemma SameFollowed(s: State, s': State, r: int64)
    requires Followed(s, r) && SameFor(s, s', r)
    ensures Followed(s', r)
  {}

  lemma EnterFollowed(s: State, c: int64, t: int64, q: int64, w: Written, r: int64)
    requires InOrder(s) && Followed(s, r) && c in s.conns
    requires Owns(s, t, q) ==> Writes(w, s.roles[q].x, s.roles[q].y)
    ensures Followed(Entered(s, c, t, q, w), r)
  {
    assert Settled(s, q);
  }

  lemma ReconnectFollowed(s: State, c: int64, t: int64, q: int64, r: int64)
    requires InOrder(s) && Followed(s, r) && c in s.conns
    ensures Followed(Reconnected(s, c, t, q), r)
  {
    hide RolesInOrder, Entitled;
    assert Settled(s, q);
    if q in s.cache { ReadBack(s, q); }
  }

  lemma MoveFollowed(s: State, q: int64, m: int64, x: real, y: real, allowed: bool, reached: bool, w: Written, r: int64)
    requires InOrder(s) && Followed(s, r) && Writes(w, ClampCoord(x), ClampCoord(y))
    requires q == r && allowed && r in SceneAt(s.scenes, m) ==> reached
    ensures Followed(MovedTo(s, q, m, x, y, allowed, reached, w), r)
  {
    if q == r && allowed && r in SceneAt(s.scenes, m) {
      assert ValueOf(w) == Vec(ClampCoord(x), ClampCoord(y));
    } else {
      MoveLeaves(s, q, m, x, y, allowed, reached, w, r);
      SameFollowed(s, MovedTo(s, q, m, x, y, allowed, reached, w), r);
    }
  }

  /** Writing positions back and signing off leave the scene, and at most empty the cache. */
  lemma SignOffFollowed(s: State, q: int64, r: int64)
    requires InOrder(s) && Followed(s, r)
    ensures Followed(Synced(s, q), r) && Followed(SignedOff(s, q), r)
    ensures SignedOff(s, q).scenes == s.scenes && SignedOff(s, q).last == s.last
  {
    SignOffKeeps(s, q);
  }

  lemma LeaveFollowed(s: State, c: int64, t: int64, r: int64)
    requires InOrder(s) && Followed(s, r) && c in s.conns
    ensures Followed(LoggedOut(s, c, t), r) && Followed(TimedOut(s, c), r)
  {
    SignOffFollowed(s, s.conns[c].role, r);
    hide InOrder, SignedOff;
  }

  /** Steps that do not touch positions. */
  lemma QuietFollowed(s: State, ev: Event, r: int64)
    requires Fair(s, ev) && Followed(s, r) && Quiet(ev)
    ensures Followed(Next(s, ev), r)
  {
    QuietShape(s, ev);
    hide Next, Followed;
    SameFollowed(s, Next(s, ev), r);
  }

  lemma CreateFollowed(s: State, t: int64, name: string, q: int64, r: int64)
    requires q !in s.roles && Followed(s, r)
    ensures Followed(Created(s, t, name, q), r)
  {
    hide Followed, NameTaken, RolesOf;
    SameFollowed(s, Created(s, t, name, q), r);
  }

  /** Whatever the step, a role that is followed stays followed if its own accepted move, if it is one, is cached. */
  lemma StepFollowed(s: State, ev: Event, r: int64)
    requires InOrder(s) && Fair(s, ev) && Followed(s, r) && Reaches(s, ev, r)
    ensures Followed(Next(s, ev), r)
  {
    hide InOrder, Followed, Entered, Reconnected, MovedTo, LoggedOut, TimedOut, Synced, Created;
    match ev
    case EnterScene(c, t, q, w) => EnterFollowed(s, c, t, q, w, r);
    case Reconnect(c, t, q) => ReconnectFollowed(s, c, t, q, r);
    case Move(q, m, x, y, allowed, reached, w) => MoveFollowed(s, q, m, x, y, allowed, reached, w, r);
    case Sync(q) => SignOffFollowed(s, q, r);
    case Logout(c, t) => LeaveFollowed(s, c, t, r);
    case Timeout(c) => if !s.locked { LeaveFollowed(s, c, 0, r); }
    case CreateRole(t, name, q) => CreateFollowed(s, t, name, q, r);
    case _ => QuietFollowed(s, ev, r);
  }

  /**
   * Over every run, from any point on, cache and scene hold the position a role was last accepted at, as long
   * as its own accepted moves are cached, whatever becomes of anybody else's.
   */
  lemma {:induction false} RunFollowed(states: seq<State>, evs: seq<Event>, i: nat, n: nat, r: int64)
    requires Run(states, evs) && i <= n < |states| && Followed(states[i], r)
    requires forall k | i <= k < n :: Reaches(states[k], evs[k], r)
    ensures Followed(states[n], r)
  {
    hide Next, Followed, Reaches, InOrder;
    if i == n {
    } else {
      RunFollowed(states, evs, i, n - 1, r);
      RunInOrder(states, evs, n - 1);
      StepFollowed(states[n - 1], evs[n - 1], r);
    }
  }

  /** A cached move, and an entry at the database's row, bring this about from any state. */
  lemma WriteFollows(s: State, ev: Event, r: int64)
    requires InOrder(s) && Fair(s, ev)
    requires match ev
             case EnterScene(_, t, q, _) => q == r && Owns(s, t, r)
             case Move(q, m, _, _, allowed, reached, _) => q == r && r in SceneAt(s.scenes, m) && allowed && reached
             case _ => false
    ensures Followed(Next(s, ev), r)
  {
    assert Settled(s, r);
  }

  /**
   * An accepted move takes the role, in its scene and as its last accepted position, to the place of the map nearest
   * to the request.
   */
  lemma MoveIsNearest(s: State, r: int64, m: int64, x: real, y: real, reached: bool, w: Written)
    requires r in SceneAt(s.scenes, m)
    ensures var s' := MovedTo(s, r, m, x, y, true, reached, w);
            && r in s'.last && NearestOnMap(x, s'.last[r].x) && NearestOnMap(y, s'.last[r].y)
            && r in SceneAt(s'.scenes, m)
            && s'.scenes[m][r] == Place(Some(s'.last[r].x), Some(s'.last[r].y))
  {
    ClampIff(x, ClampCoord(x));
    ClampIff(y, ClampCoord(y));
  }

  lemma StartsFollowed(states: seq<State>, evs: seq<Event>, r: int64)
    requires Run(states, evs)
    ensures Followed(states[0], r)
  {}

  /** Once locked, the table stays locked. */
  lemma {:induction false} StaysLocked(states: seq<State>, evs: seq<Event>, i: nat, n: nat)
    requires Run(states, evs) && i <= n < |states| && states[i].locked
    ensures states[n].locked
  {
    if i == n {
    } else {
      StaysLocked(states, evs, i, n - 1);
      LockedStep(states[n - 1], evs[n - 1]);
    }
  }

  lemma LockedStep(s: State, ev: Event)
    requires Fair(s, ev) && s.locked
    ensures Next(s, ev).locked
  {
    if !ev.Connect? && !ev.Disconnect? && !ev.Timeout? {
      KeepsTable(s, ev);
    }
    hide Fair, Entered, Reconnected, MovedTo, LoggedOut, Created, WrittenBack, TimedOut;
  }

  /** Until a sweep has closed a connection this is so for all roles. */
  lemma FollowedUntilLocked(states: seq<State>, evs: seq<Event>, n: nat, r: int64)
    requires Run(states, evs) && n < |states| && !states[n].locked
    ensures Followed(states[n], r)
  {
    hide Next, Followed, Reaches;
    StartsFollowed(states, evs, r);
    forall k | 0 <= k < n ensures Reaches(states[k], evs[k], r) {
      if states[k].locked { StaysLocked(states, evs, k, n); }
      OpenReaches(states[k], evs[k], r);
    }
    RunFollowed(states, evs, 0, n, r);
  }

  lemma OpenReaches(s: State, ev: Event, r: int64)
    requires Fair(s, ev) && !s.locked
    ensures Reaches(s, ev, r)
  {}
}
