/** When an entry keeps views true: always for newcomers and within a cell, and not when coming back elsewhere. */
module Reentry {
  import opened GoTypes
  import opened Geometry
  import opened Grid
  import opened SceneModel
  import opened AoiWorld
  import opened Views

  /** Nothing was ever sent to the connection. */
  ghost predicate Unused(log: seq<Delivery>, conn: int64) {
    forall i | 0 <= i < |log| :: log[i].conn != conn
  }

  lemma {:induction false} UnusedShowsNobody(log: seq<Delivery>, conn: int64)
    requires Unused(log, conn)
    ensures Replay(log, conn) == {}
  {
    if log == [] {
    } else {
      UnusedShowsNobody(log[..|log| - 1], conn);
    }
  }

  /** A role that is in no scene, or that stays in its cell, coming in on an unused connection. */
  lemma FreshConnectionIsLossless(w: World, conn: int64, role: int64, m: int64, p: Vec)
    requires w.dims.Ok() && Unused(w.net.log, conn)
    requires w.Holds(m, role) ==> CellOf(w.dims, w.scenes[m].pos[role]) == CellOf(w.dims, p)
    ensures Lossless(w, conn, role, m, p)
  {
    UnusedShowsNobody(w.net.log, conn);
  }

  /** A role that enters again on its own connection within its cell. */
  lemma SameCellIsLossless(w: World, role: int64, m: int64, p: Vec)
    requires Sound(w) && w.Holds(m, role) && w.Live(role)
    requires CellOf(w.dims, w.scenes[m].pos[role]) == CellOf(w.dims, p)
    ensures Lossless(w, w.lobby[role], role, m, p)
  {
    assert SeesTruly(w, m, role);
  }

  // ---------------------------------------------------------------------
  // Entering again elsewhere
  // ---------------------------------------------------------------------

  /** Whoever saw the role where it was, and is not around the place of entry, sees it still: a ghost. */
  lemma FarReentryLeavesGhost(w: World, conn: int64, role: int64, m: int64, name: string, p: Vec, others: seq<int64>,
                              w': World, o: int64)
    requires Sound(w) && Bindable(w, conn, role, m) && EnterWith(Bound(w, conn, role), role, m, name, p, others, w')
    requires w.Holds(m, role) && Bound(w, conn, role).Live(o)
    requires o in Neighbours(w.dims, w.scenes[m].pos, role) - NewView(w, role, m, p)
    ensures w'.Live(o) && w'.Holds(m, o)
    ensures role in w'.View(o) && role !in Neighbours(w'.dims, w'.scenes[m].pos, o)
  {
    assert SeesTruly(w, m, o);
    Mutual(w.dims, w.scenes[m].pos, role, o);
    EnterReplay(w, conn, role, m, name, p, others, w', o);
    Mutual(w'.dims, w'.scenes[m].pos, role, o);
  }

  /** The world after an entry, written out. */
  function After(w: World, role: int64, m: int64, name: string, p: Vec, others: seq<int64>): World
    requires w.dims.Ok()
    requires forall i | 0 <= i < |others| :: others[i] in Added(w.dims, w.SceneOf(m), role, name, p).shown
  {
    var s := Added(w.dims, w.SceneOf(m), role, name, p);
    w.(scenes := w.scenes[m := s], net := Greet(w.net, w.lobby, s, others, Info(role, name, p)),
       roleConns := if role in w.lobby then w.roleConns[role := w.lobby[role]] else w.roleConns)
  }

  /** A newcomer on an unused connection keeps all views true. */
  lemma Newcomer(w: World, conn: int64, role: int64, m: int64, p: Vec, others: seq<int64>)
    requires Sound(w) && Bindable(w, conn, role, m) && Unused(w.net.log, conn) && !w.Holds(m, role)
    requires Lists(others, NewView(w, role, m, p))
    ensures forall i | 0 <= i < |others| :: others[i] in Added(w.dims, w.SceneOf(m), role, "", p).shown
    ensures var w' := After(Bound(w, conn, role), role, m, "", p, others);
            Step(w, Enter(conn, role, m, "", p), w') && Sound(w')
  {
    forall i | 0 <= i < |others| ensures others[i] in Added(w.dims, w.SceneOf(m), role, "", p).shown {
      assert w.Holds(m, others[i]) && WellShown(w.dims, w.scenes[m], others[i]);
    }
    var w' := After(Bound(w, conn, role), role, m, "", p, others);
    assert EnterWith(Bound(w, conn, role), role, m, "", p, others, w');
    FreshConnectionIsLossless(w, conn, role, m, p);
    EnterKeepsIff(w, conn, role, m, "", p, others, w');
  }

  /** The service as shipped: a map of 1000 by 1000 in cells of 100, twenty moves a second. */
  const AT_START :=
    World.World(Dims(10, 10, 100.0), 50_000_000, map[1 := EMPTY_SCENE], map[], map[], map[], Net([], 0), [])

  const NEAR := Vec(50.0, 50.0)
  const FAR := Vec(950.0, 950.0)

  lemma Corners()
    ensures CellOf(AT_START.dims, NEAR) == Cell(0, 0) && CellOf(AT_START.dims, FAR) == Cell(9, 9)
  {
    assert 50.0 / 100.0 == 0.5 && 950.0 / 100.0 == 9.5;
  }

  /** Role 1 is in the corner, on connection 11, and nothing was sent. */
  lemma FirstEntry() returns (w: World)
    ensures Step(AT_START, Enter(11, 1, 1, "", NEAR), w) && Sound(w) && w.dims == AT_START.dims && w.lastMove == map[]
    ensures w.interval == AT_START.interval
    ensures w.scenes.Keys == {1} && w.scenes[1].pos == map[1 := NEAR]
    ensures w.lobby == w.roleConns == map[1 := 11] && w.net.log == []
  {
    hide Sound;
    ViewsAreTrue([AT_START], [], 0);
    assert [AT_START][0] == AT_START;
    Newcomer(AT_START, 11, 1, 1, NEAR, []);
    w := After(Bound(AT_START, 11, 1), 1, 1, "", NEAR, []);
  }

  /** Role 2 joins it there, on connection 12. */
  lemma SecondEntry(w: World) returns (w': World)
    requires Sound(w) && w.dims == AT_START.dims && w.scenes.Keys == {1} && w.scenes[1].pos == map[1 := NEAR]
    requires w.lobby == w.roleConns == map[1 := 11] && w.net.log == []
    ensures Step(w, Enter(12, 2, 1, "", NEAR), w') && Sound(w') && w'.dims == w.dims
    ensures w'.scenes.Keys == {1} && w'.scenes[1].pos == map[1 := NEAR, 2 := NEAR]
    ensures w'.lobby == w'.roleConns == map[1 := 11, 2 := 12] && Unused(w'.net.log, 13)
  {
    hide Sound;
    assert NewView(w, 2, 1, NEAR) == {1};
    assert Bindable(w, 12, 2, 1);
    Newcomer(w, 12, 2, 1, NEAR, [1]);
    w' := After(Bound(w, 12, 2), 2, 1, "", NEAR, [1]);
    OnlyGreeted(w.net, Bound(w, 12, 2).lobby, Added(w.dims, w.scenes[1], 2, "", NEAR), Info(2, "", NEAR));
  }

  /** The messages of the second entry go to connections 11 and 12. */
  lemma OnlyGreeted(net: Net, conns: map<int64, int64>, s: SceneState, me: Info)
    requires net.log == [] && conns == map[1 := 11, 2 := 12] && me.id == 2 && 1 in s.shown
    ensures Unused(Greet(net, conns, s, [1], me).log, 13)
  {
    var told := Send(net, Find(conns, 2), AOIEnter(Infos(s, [1])));
    assert [1][..0] == [];
    assert Tell(told, conns, [1], AOIEnter([me])) == Send(told, Find(conns, 1), AOIEnter([me]));
  }

  /** Role 1 comes back in the other corner, on connection 13. */
  lemma ThirdEntry(w: World) returns (w': World)
    requires Sound(w) && w.dims == AT_START.dims && w.scenes.Keys == {1} && w.scenes[1].pos == map[1 := NEAR, 2 := NEAR]
    requires w.lobby == w.roleConns == map[1 := 11, 2 := 12]
    ensures Step(w, Enter(13, 1, 1, "", FAR), w') && w'.dims == w.dims && w'.Live(2) && w'.Holds(1, 2)
    ensures 1 in w'.View(2) && 1 !in Neighbours(w'.dims, w'.scenes[1].pos, 2)
  {
    hide Sound;
    Corners();
    assert NewView(w, 1, 1, FAR) == {};
    assert Bindable(w, 13, 1, 1);
    w' := After(Bound(w, 13, 1), 1, 1, "", FAR, []);
    assert EnterWith(Bound(w, 13, 1), 1, 1, "", FAR, [], w');
    FarReentryLeavesGhost(w, 13, 1, 1, "", FAR, [], w', 2);
  }

  /**
   * A run of three entries that ends in an untrue view: two players meet in one corner, then the first comes
   * back, on a new connection, in the opposite one. The second was never told that it left.
   */
  lemma FarReentryExample() returns (worlds: seq<World>)
    ensures Run(worlds, [Enter(11, 1, 1, "", NEAR), Enter(12, 2, 1, "", NEAR), Enter(13, 1, 1, "", FAR)])
    ensures Sound(worlds[2]) && worlds[3].Live(2) && worlds[3].Holds(1, 2)
    ensures 1 in worlds[3].View(2) && 1 !in Neighbours(worlds[3].dims, worlds[3].scenes[1].pos, 2)
  {
    hide Sound, Step;
    var w1 := FirstEntry();
    var w2 := SecondEntry(w1);
    var w3 := ThirdEntry(w2);
    worlds := [AT_START, w1, w2, w3];
  }
}
