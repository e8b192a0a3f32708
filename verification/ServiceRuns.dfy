/**
 * Since when the service has a role in a scene, on a connection, and as having moved: told by the steps of a run;
 * and so which moves the limiter lets through.
 */
module ServiceRuns {
  import opened GoTypes
  import opened Geometry
  import opened Grid
  import opened SceneModel
  import opened MoveLimit
  import opened AoiWorld
  import opened Deliveries
  import V = Views

  /** What there is to know about a role. */
  datatype Fact =
    | InScene(mapId: int64, role: int64)
    | OnConn(role: int64, conn: int64)
    | FoundOn(role: int64, conn: int64)
    | LastMoved(role: int64, time: int)

  /** The role is in the scene, the service has the connection for it, the lobby finds it, its last move was then. */
  ghost predicate Known(w: World, f: Fact) {
    match f
    case InScene(m, r) => m in w.scenes && r in w.scenes[m].pos
    case OnConn(r, c) => r in w.roleConns && w.roleConns[r] == c
    case FoundOn(r, c) => r in w.lobby && w.lobby[r] == c
    case LastMoved(r, t) => r in w.lastMove && w.lastMove[r] == t
  }

  /** The step makes it so. */
  ghost predicate Starts(w: World, ev: Event, f: Fact) {
    match f
    case InScene(m, r) => ev.Enter? && ev.role == r && ev.mapId == m
    case OnConn(r, c) => ev.Enter? && ev.role == r && ev.conn == c
    case FoundOn(r, c) => ev.Enter? && ev.role == r && ev.conn == c
    case LastMoved(r, t) => ev.Move? && ev.role == r && ev.now == t && LetThrough(w, r, t)
  }

  /** The role leaves a map that there is. */
  predicate Leaves(w: World, ev: Event, r: int64) {
    ev.Leave? && ev.role == r && ev.mapId in w.scenes
  }

  /** The step puts an end to it. Leaving forgets the last move, so that the next one is let through at once. */
  ghost predicate Stops(w: World, ev: Event, f: Fact) {
    match f
    case InScene(m, r) => Leaves(w, ev, r) && ev.mapId == m
    case OnConn(r, _) => (ev.Enter? && ev.role == r) || Leaves(w, ev, r)
    case FoundOn(r, c) => (ev.Enter? && (ev.role == r || ev.conn == c)) || (ev.Drop? && ev.role == r)
    case LastMoved(r, _) => (ev.Move? && ev.role == r && LetThrough(w, r, ev.now)) || Leaves(w, ev, r)
  }

  ghost predicate Told(w: World, ev: Event, w': World, f: Fact) {
    Known(w', f) <==> Starts(w, ev, f) || (Known(w, f) && !Stops(w, ev, f))
  }

  lemma EnterTold(w: World, ev: Event, w': World, f: Fact)
    requires w.dims.Ok() && ev.Enter? && Step(w, ev, w')
    ensures Told(w, ev, w', f)
  {
    hide Greet, Lists, Neighbours, CellOf;
  }

  lemma LeaveTold(w: World, ev: Event, w': World, f: Fact)
    requires w.dims.Ok() && ev.Leave? && Step(w, ev, w')
    ensures Told(w, ev, w', f)
  {
    hide Tell, Lists, Neighbours;
  }

  lemma MovedTold(w: World, ev: Event, w': World, m: int64, f: Fact)
    requires ev.Move? && LetThrough(w, ev.role, ev.now) && MovedIn(w, ev.role, ev.x, ev.y, ev.now, m, w')
    ensures Told(w, ev, w', f)
  {
    hide LetThrough, NearestOnMap;
  }

  lemma MoveTold(w: World, ev: Event, w': World, f: Fact)
    requires w.dims.Ok() && ev.Move? && Step(w, ev, w')
    ensures Told(w, ev, w', f)
  {
    MoveEffect(w, ev.role, ev.x, ev.y, ev.now, w');
    hide MoveStep, NearestOnMap, LetThrough, MovedIn;
    if LetThrough(w, ev.role, ev.now) {
      var m :| MovedIn(w, ev.role, ev.x, ev.y, ev.now, m, w');
      MovedTold(w, ev, w', m, f);
    }
  }

  lemma StepTold(w: World, ev: Event, w': World, f: Fact)
    requires w.dims.Ok() && Step(w, ev, w')
    ensures Told(w, ev, w', f) && w'.interval == w.interval
  {
    hide Told, Greet, Tell, Lists, Neighbours, CellOf, Meet, Part, Broadcast, Entering, Permits;
    match ev
    case Enter(_, _, _, _, _) => EnterTold(w, ev, w', f);
    case Leave(_, _) => LeaveTold(w, ev, w', f);
    case Move(_, _, _, _) => MoveTold(w, ev, w', f);
    case Drop(_) => DropTold(w, ev, w', f);
  }

  lemma DropTold(w: World, ev: Event, w': World, f: Fact)
    requires w.dims.Ok() && ev.Drop? && Step(w, ev, w')
    ensures Told(w, ev, w', f)
  {}

  // ---------------------------------------------------------------------
  // Runs
  // ---------------------------------------------------------------------

  /** Step i of the run has started it, and none before step n has stopped it. */
  ghost predicate Since(worlds: seq<World>, evs: seq<Event>, i: nat, n: nat, f: Fact)
    requires n <= |evs| && n < |worlds|
  {
    i < n && Starts(worlds[i], evs[i], f) && forall k | i < k < n :: !Stops(worlds[k], evs[k], f)
  }

  lemma SinceOneMore(worlds: seq<World>, evs: seq<Event>, n: nat, next: nat, f: Fact)
    requires next == n + 1 && n < |evs| && next < |worlds|
    ensures (exists i: nat :: Since(worlds, evs, i, next, f)) <==>
            || Starts(worlds[n], evs[n], f)
            || (!Stops(worlds[n], evs[n], f) && exists i: nat :: Since(worlds, evs, i, n, f))
  {
    hide Starts, Stops;
    if i: nat :| Since(worlds, evs, i, next, f) {
      if i < n { assert Since(worlds, evs, i, n, f); }
    }
    if Starts(worlds[n], evs[n], f) { assert Since(worlds, evs, n, next, f); }
    if i: nat :| Since(worlds, evs, i, n, f) {
      if !Stops(worlds[n], evs[n], f) { assert Since(worlds, evs, i, next, f); }
    }
  }

  /**
   * Over every run: the service has a role in a scene, or on a connection, or as having moved at a time, and the lobby
   * finds it on a connection, exactly if some step has made it so and no later one has put an end to it.
   */
  lemma {:induction false} FactIff(worlds: seq<World>, evs: seq<Event>, n: nat, f: Fact)
    requires V.Run(worlds, evs) && n < |worlds|
    ensures Known(worlds[n], f) <==> exists i: nat :: Since(worlds, evs, i, n, f)
    ensures worlds[n].interval == worlds[0].interval
  {
    hide Step, Starts, Stops;
    if n == 0 {
    } else {
      FactIff(worlds, evs, n - 1, f);
      StepTold(worlds[n - 1], evs[n - 1], worlds[n], f);
      SinceOneMore(worlds, evs, n - 1, n, f);
    }
  }

  /**
   * Over every run, a request to move is let through exactly if its role is in a scene, and every move of it that was
   * let through, with no other one and no leaving since, is at least the interval ago.
   */
  lemma LetThroughIff(worlds: seq<World>, evs: seq<Event>, n: nat, role: int64, now: int)
    requires V.Run(worlds, evs) && n < |worlds|
    ensures LetThrough(worlds[n], role, now) <==>
            && (exists m :: Known(worlds[n], InScene(m, role)))
            && forall i: nat, t: int | Since(worlds, evs, i, n, LastMoved(role, t)) :: now - t >= worlds[0].interval
  {
    hide Step, Starts, Stops;
    var w := worlds[n];
    assert (exists m :: Known(w, InScene(m, role))) <==> exists m :: w.Holds(m, role) by {
      if m :| w.Holds(m, role) { assert Known(w, InScene(m, role)); }
      if m :| Known(w, InScene(m, role)) { assert w.Holds(m, role); }
    }
    forall t: int
      ensures Known(w, LastMoved(role, t)) <==> exists i: nat :: Since(worlds, evs, i, n, LastMoved(role, t))
    {
      FactIff(worlds, evs, n, LastMoved(role, t));
    }
    FactIff(worlds, evs, n, LastMoved(role, now));
    if role in w.lastMove {
      assert Known(w, LastMoved(role, w.lastMove[role]));
    }
  }

  /** So after leaving, the next move is let through whatever the time, if it has entered again. */
  lemma LeavingForgets(w: World, ev: Event, w': World, role: int64)
    requires w.dims.Ok() && Leaves(w, ev, role) && Step(w, ev, w')
    ensures role !in w'.lastMove && role !in w'.roleConns && role !in w'.scenes[ev.mapId].pos
  {
    hide Tell, Lists, Neighbours;
  }
}
