/** Over every run, each client's replayed view is the true 3x3 neighbourhood of its player. */
module Views {
  import opened GoTypes
  import opened Geometry
  import opened Grid
  import opened SceneModel
  import opened MoveLimit
  import opened AoiWorld

  /** Nobody is in two scenes. */
  ghost predicate OneScene(w: World) {
    forall m1, m2, r: int64 :: w.Holds(m1, r) && w.Holds(m2, r) ==> m1 == m2
  }

  /** Different roles are never reached through one connection, and a role through one at most. */
  ghost predicate Separate(w: World) {
    forall q: int64, r: int64 :: Apart(w, q, r)
  }

  ghost predicate Apart(w: World, q: int64, r: int64) {
    && (q in w.lobby && r in w.lobby ==> (w.lobby[q] == w.lobby[r] <==> q == r))
    && (q in w.roleConns && r in w.roleConns ==> (w.roleConns[q] == w.roleConns[r] <==> q == r))
    && (q in w.lobby && r in w.roleConns ==> (w.lobby[q] == w.roleConns[r] <==> q == r))
  }

  ghost predicate Formed(w: World) {
    w.dims.Ok() && forall m | m in w.scenes :: WellFormed(w.dims, w.scenes[m])
  }

  /** The client of r sees exactly the other players around r. */
  ghost predicate SeesTruly(w: World, m: int64, r: int64)
    requires w.dims.Ok() && w.Holds(m, r) && r in w.lobby
  {
    w.View(r) == Neighbours(w.dims, w.scenes[m].pos, r)
  }

  ghost predicate Exact(w: World)
    requires w.dims.Ok()
  {
    forall m, r: int64 | w.Holds(m, r) && w.Live(r) :: SeesTruly(w, m, r)
  }

  ghost predicate Sound(w: World) {
    Formed(w) && OneScene(w) && Separate(w) && Exact(w)
  }

  // ---------------------------------------------------------------------
  // Who a list of roles reaches
  // ---------------------------------------------------------------------

  /** conn leads to r and to nobody else. */
  ghost predicate OnlyFor(conns: map<int64, int64>, conn: int64, r: int64) {
    forall q: int64 :: Find(conns, q) == Some(conn) <==> q == r
  }

  lemma LiveOnlyFor(w: World, r: int64)
    requires Separate(w) && w.Live(r)
    ensures OnlyFor(w.lobby, w.lobby[r], r) && OnlyFor(w.MoveConns(), w.lobby[r], r)
  {
    forall q: int64
      ensures Find(w.lobby, q) == Some(w.lobby[r]) <==> q == r
      ensures Find(w.MoveConns(), q) == Some(w.lobby[r]) <==> q == r
    {
      assert Apart(w, q, r) && Apart(w, r, q);
    }
  }

  lemma ReachedIsListed(conns: map<int64, int64>, ids: seq<int64>, s: set<int64>, conn: int64, r: int64)
    requires OnlyFor(conns, conn, r) && Lists(ids, s)
    ensures Reaches(conns, ids, conn) <==> r in s
  {
    if r in s {
      var i :| 0 <= i < |ids| && ids[i] == r;
      assert Find(conns, ids[i]) == Some(conn);
    }
    if Reaches(conns, ids, conn) {
      var i :| 0 <= i < |ids| && Find(conns, ids[i]) == Some(conn);
      assert ids[i] == r;
    }
  }

  lemma ListsElements(ids: seq<int64>, s: set<int64>)
    requires Lists(ids, s)
    ensures Elements(ids) == s
  {}

  // ---------------------------------------------------------------------
  // Moving
  // ---------------------------------------------------------------------

  /** What a move does to the replay of any live client. */
  lemma MoveReplay(w: World, role: int64, m: int64, p: Vec, now: int, l: Lists3, w': World, r: int64)
    requires Formed(w) && Separate(w) && w.Live(r)
    requires w.Holds(m, role) && role in w.scenes[m].shown && MoveWith(w, role, m, p, now, l, w')
    ensures var pos, from, to := w'.scenes[m].pos, CellOf(w.dims, w.scenes[m].pos[role]), CellOf(w.dims, p);
            var enter, leave := Entering(w.dims, pos, from, to), Entering(w.dims, pos, to, from);
            Replay(w'.net.log, w.lobby[r]) ==
              Replay(w.net.log, w.lobby[r]) + If(r in enter, {role}) + If(role == r, enter)
              - If(r in leave, {role}) - If(role == r, leave)
  {
    var s, conns, c := Moved(w.dims, w.scenes[m], role, p), w.MoveConns(), w.lobby[r];
    var from, to := CellOf(w.dims, w.scenes[m].pos[role]), CellOf(w.dims, p);
    var enter, leave := Entering(w.dims, s.pos, from, to), Entering(w.dims, s.pos, to, from);
    var met := Meet(w.net, conns, s, l.enters, Info(role, "", p));
    var parted := Part(met, conns, l.leaves, role);
    KeepsForm(w.dims, w.scenes[m], role, "", p);
    assert forall i | 0 <= i < |l.enters| :: WellShown(w.dims, s, l.enters[i]);
    MeetView(w.net, conns, s, l.enters, Info(role, "", p), c);
    PartView(met, conns, l.leaves, role, c);
    ShoutView(parted.(ticks := parted.ticks + 1), conns, l.visible,
              MoveBroadcast(role, p, ToInt32(Counter(parted.ticks + 1))), c);
    LiveOnlyFor(w, r);
    ReachedIsListed(conns, l.enters, enter, c, r);
    ReachedIsListed(conns, l.leaves, leave, c, r);
    ListsElements(l.enters, enter);
    ListsElements(l.leaves, leave);
  }

  lemma MoverSees(w: World, role: int64, m: int64, p: Vec, now: int, l: Lists3, w': World)
    requires Formed(w) && Separate(w) && w.Live(role)
    requires w.Holds(m, role) && role in w.scenes[m].shown && MoveWith(w, role, m, p, now, l, w')
    requires SeesTruly(w, m, role)
    ensures SeesTruly(w', m, role)
  {
    MoveReplay(w, role, m, p, now, l, w', role);
    MoveDifference(w.dims, w.scenes[m].pos, role, p);
    hide Replay, CellOf, Near, Apart, Meet, Part, Broadcast;
  }

  lemma OtherSees(w: World, role: int64, m: int64, p: Vec, now: int, l: Lists3, w': World, k: int64, r: int64)
    requires Formed(w) && Separate(w) && w.Live(r) && r != role
    requires w.Holds(m, role) && role in w.scenes[m].shown && MoveWith(w, role, m, p, now, l, w')
    requires w.Holds(k, r) && SeesTruly(w, k, r) && (w.Holds(m, r) ==> k == m)
    ensures SeesTruly(w', k, r)
  {
    MoveReplay(w, role, m, p, now, l, w', r);
    if k == m {
      MoveSeenByOther(w.dims, w.scenes[m].pos, role, p, r);
    }
  }

  lemma SeesAfterMove(w: World, role: int64, m: int64, p: Vec, now: int, l: Lists3, w': World, k: int64, r: int64)
    requires Sound(w) && w.Holds(k, r) && w.Live(r)
    requires w.Holds(m, role) && role in w.scenes[m].shown && MoveWith(w, role, m, p, now, l, w')
    ensures w'.Holds(k, r) && w'.Live(r) && SeesTruly(w', k, r)
  {
    assert SeesTruly(w, k, r);
    if r == role {
      assert k == m;
      MoverSees(w, role, m, p, now, l, w');
    } else {
      OtherSees(w, role, m, p, now, l, w', k, r);
    }
  }

  lemma MoveKeeps(w: World, role: int64, m: int64, p: Vec, now: int, l: Lists3, w': World)
    requires Sound(w)
    requires w.Holds(m, role) && role in w.scenes[m].shown && MoveWith(w, role, m, p, now, l, w')
    ensures Sound(w')
  {
    KeepsForm(w.dims, w.scenes[m], role, "", p);
    forall m1, r: int64 ensures w'.Holds(m1, r) <==> w.Holds(m1, r) {}
    forall q: int64, r: int64 ensures Apart(w', q, r) { assert Apart(w, q, r); }
    forall k, r: int64 | w'.Holds(k, r) && w'.Live(r) ensures SeesTruly(w', k, r) {
      assert w.Holds(k, r) && w.Live(r);
      SeesAfterMove(w, role, m, p, now, l, w', k, r);
    }
  }

  // ---------------------------------------------------------------------
  // Leaving
  // ---------------------------------------------------------------------

  lemma LeaveSees(w: World, role: int64, m: int64, others: seq<int64>, w': World, k: int64, r: int64)
    requires Formed(w) && Separate(w) && m in w.scenes && LeaveWith(w, role, m, others, w')
    requires w'.Holds(k, r) && w.Holds(k, r) && w.Live(r) && SeesTruly(w, k, r) && (w.Holds(m, r) ==> k == m)
    ensures SeesTruly(w', k, r)
  {
    var s, c := w.scenes[m], w.lobby[r];
    var told := if role in s.pos then Neighbours(w.dims, s.pos, role) else {};
    TellView(w.net, w.lobby, others, AOILeave([role]), c);
    LiveOnlyFor(w, r);
    ReachedIsListed(w.lobby, others, told, c, r);
    assert Elements([role]) == {role};
    if k == m && role in s.pos {
      LeaveSeenByOther(w.dims, s.pos, role, r);
    }
  }

  lemma LeaveKeeps(w: World, role: int64, m: int64, others: seq<int64>, w': World)
    requires Sound(w) && m in w.scenes && LeaveWith(w, role, m, others, w')
    ensures Sound(w')
  {
    KeepsForm(w.dims, w.scenes[m], role, "", Vec(0.0, 0.0));
    forall k, r: int64 | w'.Holds(k, r) ensures w.Holds(k, r) {}
    forall q: int64, r: int64 ensures Apart(w', q, r) { assert Apart(w, q, r); }
    forall k, r: int64 | w'.Holds(k, r) && w'.Live(r) ensures SeesTruly(w', k, r) {
      LeaveSees(w, role, m, others, w', k, r);
    }
  }

  // ---------------------------------------------------------------------
  // Entering, and entering again
  // ---------------------------------------------------------------------

  /**
   * The scene service does not have another role on conn, nor the role in another scene. The lobby does not
   * look: a connection may go on to play a second role, and the service still has the first one on it.
   */
  ghost predicate Bindable(w: World, conn: int64, role: int64, m: int64) {
    && (forall q: int64 | q != role && q in w.roleConns :: w.roleConns[q] != conn)
    && (forall k | w.Holds(k, role) :: k == m)
  }

  /** The neighbourhood the role has after entering at p. */
  ghost function NewView(w: World, role: int64, m: int64, p: Vec): set<int64>
    requires w.dims.Ok()
  {
    Neighbours(w.dims, w.SceneOf(m).pos[role := p], role)
  }

  /**
   * Nothing would have to be taken out of a view: what the connection has been shown before, and who is
   * watching the role where it is, are around the place of entry. So for a fresh connection and a role
   * that is in no scene, and for entering again within the cell.
   */
  ghost predicate Lossless(w: World, conn: int64, role: int64, m: int64, p: Vec)
    requires w.dims.Ok()
  {
    && Replay(w.net.log, conn) - {role} <= NewView(w, role, m, p)
    && (w.Holds(m, role) ==>
          forall o | o in Neighbours(w.dims, w.scenes[m].pos, role) && Bound(w, conn, role).Live(o) ::
            o in NewView(w, role, m, p))
  }

  lemma BoundOnlyFor(w: World, conn: int64, role: int64, m: int64, r: int64)
    requires Separate(w) && Bindable(w, conn, role, m) && Bound(w, conn, role).Live(r)
    ensures OnlyFor(Bound(w, conn, role).lobby, Bound(w, conn, role).lobby[r], r)
  {
    forall q: int64 ensures Find(Bound(w, conn, role).lobby, q) == Some(Bound(w, conn, role).lobby[r]) <==> q == r {
      assert Apart(w, q, r);
    }
  }

  /** What an entry does to the replay of any live client. */
  lemma EnterReplay(w: World, conn: int64, role: int64, m: int64, name: string, p: Vec, others: seq<int64>, w': World,
                    r: int64)
    requires Formed(w) && Separate(w) && Bindable(w, conn, role, m) && Bound(w, conn, role).Live(r)
    requires EnterWith(Bound(w, conn, role), role, m, name, p, others, w')
    ensures var c := Bound(w, conn, role).lobby[r];
            Replay(w'.net.log, c) ==
              Replay(w.net.log, c) + If(r in NewView(w, role, m, p), {role}) + If(role == r, NewView(w, role, m, p))
  {
    var wb, c := Bound(w, conn, role), Bound(w, conn, role).lobby[r];
    var s := Added(w.dims, w.SceneOf(m), role, name, p);
    if m !in w.scenes {
      forall o: int64 ensures WellShown(w.dims, EMPTY_SCENE, o) {}
    }
    KeepsForm(w.dims, w.SceneOf(m), role, name, p);
    assert forall i | 0 <= i < |others| :: WellShown(w.dims, s, others[i]);
    GreetView(w.net, wb.lobby, s, others, Info(role, name, p), c);
    BoundOnlyFor(w, conn, role, m, r);
    ReachedIsListed(wb.lobby, others, NewView(w, role, m, p), c, r);
    ListsElements(others, NewView(w, role, m, p));
  }

  /** The one who enters sees truly exactly when what the connection showed before is around the place of entry. */
  lemma EntrantSees(w: World, conn: int64, role: int64, m: int64, name: string, p: Vec, others: seq<int64>, w': World)
    requires Formed(w) && Separate(w) && Bindable(w, conn, role, m)
    requires EnterWith(Bound(w, conn, role), role, m, name, p, others, w')
    ensures SeesTruly(w', m, role) <==> Replay(w.net.log, conn) - {role} <= NewView(w, role, m, p)
  {
    EnterReplay(w, conn, role, m, name, p, others, w', role);
  }

  /** Anyone else still sees truly exactly when it did not lose sight of the one who enters. */
  lemma OnlookerSees(w: World, conn: int64, role: int64, m: int64, name: string, p: Vec, others: seq<int64>, w': World,
                     k: int64, r: int64)
    requires Formed(w) && Separate(w) && Bindable(w, conn, role, m)
    requires EnterWith(Bound(w, conn, role), role, m, name, p, others, w')
    requires r != role && Bound(w, conn, role).Live(r)
    requires w.Holds(k, r) && SeesTruly(w, k, r) && (w.Holds(m, r) ==> k == m)
    ensures w'.Holds(k, r) && w'.Live(r)
    ensures SeesTruly(w', k, r) <==>
            (w.Holds(m, role) && k == m && r in Neighbours(w.dims, w.scenes[m].pos, role) ==>
               r in NewView(w, role, m, p))
  {
    EnterReplay(w, conn, role, m, name, p, others, w', r);
    if k == m {
      EnterSeenByOther(w.dims, w.scenes[m].pos, role, p, r);
    }
  }

  lemma EnterFrame(w: World, conn: int64, role: int64, m: int64, name: string, p: Vec, others: seq<int64>, w': World)
    requires Formed(w) && OneScene(w) && Separate(w) && Bindable(w, conn, role, m)
    requires EnterWith(Bound(w, conn, role), role, m, name, p, others, w')
    ensures Formed(w') && OneScene(w') && Separate(w')
    ensures forall k, r: int64 :: w'.Holds(k, r) <==> w.Holds(k, r) || (k == m && r == role)
  {
    if m !in w.scenes {
      forall o: int64 ensures WellShown(w.dims, EMPTY_SCENE, o) {}
    }
    KeepsForm(w.dims, w.SceneOf(m), role, name, p);
    forall q: int64, r: int64 ensures Apart(w', q, r) { assert Apart(w, q, r); }
    forall k, r: int64 ensures w'.Holds(k, r) <==> w.Holds(k, r) || (k == m && r == role) {}
  }

  /** An entry that is not bindable leaves two roles on a connection, or a role in two scenes. */
  lemma MustBeBindable(w: World, conn: int64, role: int64, m: int64, name: string, p: Vec, others: seq<int64>,
                       w': World)
    requires w.dims.Ok() && EnterWith(Bound(w, conn, role), role, m, name, p, others, w')
    requires OneScene(w') && Separate(w')
    ensures Bindable(w, conn, role, m)
  {
    forall q: int64 | q != role && q in w.roleConns ensures w.roleConns[q] != conn {
      assert Apart(w', role, q);
    }
    forall k | w.Holds(k, role) ensures k == m {
      assert w'.Holds(k, role) && w'.Holds(m, role);
    }
  }

  lemma BindableKeepsIff(w: World, conn: int64, role: int64, m: int64, name: string, p: Vec, others: seq<int64>,
                         w': World)
    requires Sound(w) && Bindable(w, conn, role, m)
    requires EnterWith(Bound(w, conn, role), role, m, name, p, others, w')
    ensures Sound(w') <==> Lossless(w, conn, role, m, p)
  {
    EnterFrame(w, conn, role, m, name, p, others, w');
    EntrantSees(w, conn, role, m, name, p, others, w');
    forall k, r: int64 | w.Holds(k, r) && Bound(w, conn, role).Live(r) && r != role
      ensures w'.Holds(k, r) && w'.Live(r)
      ensures SeesTruly(w', k, r) <==>
        (w.Holds(m, role) && k == m && r in Neighbours(w.dims, w.scenes[m].pos, role) ==> r in NewView(w, role, m, p))
    {
      assert SeesTruly(w, k, r);
      OnlookerSees(w, conn, role, m, name, p, others, w', k, r);
    }
    assert w'.Holds(m, role) && w'.Live(role);
    forall k | w'.Holds(k, role) ensures k == m { assert w'.Holds(m, role); }
    if Lossless(w, conn, role, m, p) {
      forall k, r: int64 | w'.Holds(k, r) && w'.Live(r) ensures SeesTruly(w', k, r) {
        if r != role { assert w.Holds(k, r) && Bound(w, conn, role).Live(r); }
      }
    }
    if Exact(w') && w.Holds(m, role) {
      forall o | o in Neighbours(w.dims, w.scenes[m].pos, role) && Bound(w, conn, role).Live(o)
        ensures o in NewView(w, role, m, p)
      {
        assert w.Holds(m, o) && SeesTruly(w', m, o);
      }
    }
  }

  /**
   * The exact condition: an entry leaves everything sound if and only if the connection is not taken, the role
   * is nowhere else, and the entry is lossless. PlayerEnterScene tells those around the place of entry, and
   * nobody that somebody went out of view.
   */
  lemma EnterKeepsIff(w: World, conn: int64, role: int64, m: int64, name: string, p: Vec, others: seq<int64>, w': World)
    requires Sound(w) && EnterWith(Bound(w, conn, role), role, m, name, p, others, w')
    ensures Sound(w') <==> Bindable(w, conn, role, m) && Lossless(w, conn, role, m, p)
  {
    if Sound(w') {
      MustBeBindable(w, conn, role, m, name, p, others, w');
    }
    if Bindable(w, conn, role, m) {
      BindableKeepsIff(w, conn, role, m, name, p, others, w');
    }
  }

  // ---------------------------------------------------------------------
  // Runs
  // ---------------------------------------------------------------------

  /** What the lobby has to respect: only entries are constrained. */
  ghost predicate Admissible(w: World, ev: Event)
    requires w.dims.Ok()
  {
    ev.Enter? ==> Bindable(w, ev.conn, ev.role, ev.mapId) && Lossless(w, ev.conn, ev.role, ev.mapId, ev.pos)
  }

  lemma StepKeeps(w: World, ev: Event, w': World)
    requires Sound(w) && Step(w, ev, w') && Admissible(w, ev)
    ensures Sound(w')
  {
    match ev
    case Enter(c, role, m, name, p) =>
      var others :| EnterWith(Bound(w, c, role), role, m, name, p, others, w');
      EnterKeepsIff(w, c, role, m, name, p, others, w');
    case Leave(role, m) =>
      if m in w.scenes {
        var others :| LeaveWith(w, role, m, others, w');
        LeaveKeeps(w, role, m, others, w');
      }
    case Move(role, x, y, now) =>
      if (exists m :: w.Holds(m, role)) && Permits(w.lastMove, w.interval, role, now) {
        var m, l :| w.Holds(m, role) && role in w.scenes[m].shown
                    && MoveWith(w, role, m, Vec(ClampCoord(x), ClampCoord(y)), now, l, w');
        MoveKeeps(w, role, m, Vec(ClampCoord(x), ClampCoord(y)), now, l, w');
      }
    case Drop(role) =>
      DropKeeps(w, role, w');
  }

  lemma DropKeeps(w: World, role: int64, w': World)
    requires Sound(w) && w' == w.(lobby := w.lobby - {role})
    ensures Sound(w')
  {
    forall k, r: int64 ensures w'.Holds(k, r) <==> w.Holds(k, r) {}
    forall q: int64, r: int64 ensures Apart(w', q, r) { assert Apart(w, q, r); }
    forall k, r: int64 | w'.Holds(k, r) && w'.Live(r) ensures SeesTruly(w', k, r) {
      assert w.Holds(k, r) && w.Live(r) && SeesTruly(w, k, r);
    }
  }

  /** The service as it starts: nobody in a scene, nothing sent, no connection known. */
  ghost predicate Initial(w: World) {
    && w.dims.Ok()
    && (forall m | m in w.scenes :: w.scenes[m] == EMPTY_SCENE)
    && w.lobby == map[] && w.roleConns == map[] && w.lastMove == map[] && w.net == Net([], 0) && w.saved == []
  }

  /** A run: worlds[i] takes step evs[i] to worlds[i + 1]. */
  ghost predicate Run(worlds: seq<World>, evs: seq<Event>) {
    && |worlds| == |evs| + 1
    && (forall i | 0 <= i < |worlds| :: worlds[i].dims.Ok())
    && Initial(worlds[0])
    && forall i | 0 <= i < |evs| :: Step(worlds[i], evs[i], worlds[i + 1])
  }

  /**
   * Safety over all runs: whatever enters, leaves, moves and losses of connections happen, in every world
   * each player whose connection is known sees, by replaying the deliveries to it, exactly the other
   * players around it.
   */
  lemma {:induction false} ViewsAreTrue(worlds: seq<World>, evs: seq<Event>, n: nat)
    requires Run(worlds, evs) && n < |worlds|
    requires forall i | 0 <= i < n :: Admissible(worlds[i], evs[i])
    ensures Sound(worlds[n])
  {
    if n == 0 {
      var w := worlds[0];
      forall m, o: int64 | m in w.scenes ensures WellShown(w.dims, w.scenes[m], o) {}
      forall m, r: int64 ensures !w.Holds(m, r) {}
      forall q: int64, r: int64 ensures Apart(w, q, r) {}
    } else {
      ViewsAreTrue(worlds, evs, n - 1);
      StepKeeps(worlds[n - 1], evs[n - 1], worlds[n]);
    }
  }

  /** So views are mutual, although only differences are ever sent. */
  lemma ViewsAreMutual(w: World, m: int64, a: int64, b: int64)
    requires Sound(w) && w.Holds(m, a) && w.Holds(m, b) && w.Live(a) && w.Live(b)
    ensures a in w.View(b) <==> b in w.View(a)
  {
    assert SeesTruly(w, m, a) && SeesTruly(w, m, b);
    Mutual(w.dims, w.scenes[m].pos, a, b);
  }
}
