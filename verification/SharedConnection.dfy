/** Why a connection must not be taken: a second role on it is shown what the first one's player would see. */
module SharedConnection {
  import opened GoTypes
  import opened Geometry
  import opened Grid
  import opened SceneModel
  import opened MoveLimit
  import opened AoiWorld
  import opened Views
  import opened Reentry

  /**
   * A move towards q appears in the view of r, near or far, if the service has q on the connection of r,
   * and nobody on that connection is left or moves.
   */
  lemma StrayMove(w: World, role: int64, m: int64, p: Vec, now: int, l: Lists3, w': World, q: int64, r: int64)
    requires Formed(w) && w.Live(r) && r != role
    requires w.Holds(m, role) && role in w.scenes[m].shown && MoveWith(w, role, m, p, now, l, w')
    requires Find(w.MoveConns(), q) == Some(w.lobby[r]) && q in l.enters
    requires forall o | o in l.leaves || o == role :: Find(w.MoveConns(), o) != Some(w.lobby[r])
    ensures w'.Live(r) && role in w'.View(r)
  {
    var s, conns, c := Moved(w.dims, w.scenes[m], role, p), w.MoveConns(), w.lobby[r];
    var met := Meet(w.net, conns, s, l.enters, Info(role, "", p));
    var parted := Part(met, conns, l.leaves, role);
    KeepsForm(w.dims, w.scenes[m], role, "", p);
    assert forall i | 0 <= i < |l.enters| :: WellShown(w.dims, s, l.enters[i]);
    MeetView(w.net, conns, s, l.enters, Info(role, "", p), c);
    PartView(met, conns, l.leaves, role, c);
    ShoutView(parted.(ticks := parted.ticks + 1), conns, l.visible,
              MoveBroadcast(role, p, ToInt32(Counter(parted.ticks + 1))), c);
  }

  const MIDDLE := Vec(550.0, 550.0)

  lemma Places()
    ensures CellOf(AT_START.dims, NEAR) == Cell(0, 0) && CellOf(AT_START.dims, FAR) == Cell(9, 9)
    ensures CellOf(AT_START.dims, MIDDLE) == Cell(5, 5)
  {
    assert 50.0 / 100.0 == 0.5 && 950.0 / 100.0 == 9.5 && 550.0 / 100.0 == 5.5;
  }

  /** The connection of role 1 goes on to play role 2, in the opposite corner. */
  lemma SecondRole(w: World) returns (w': World)
    requires Sound(w) && w.dims == AT_START.dims && w.scenes.Keys == {1} && w.scenes[1].pos == map[1 := NEAR]
    requires w.lobby == w.roleConns == map[1 := 11] && w.net.log == []
    ensures Step(w, Enter(11, 2, 1, "", FAR), w') && Formed(w') && w'.dims == w.dims && w'.lastMove == w.lastMove
    ensures w'.scenes.Keys == {1} && w'.scenes[1].pos == map[1 := NEAR, 2 := FAR] && w'.net.log == []
    ensures w'.lobby == map[2 := 11] && w'.roleConns == map[1 := 11, 2 := 11]
    ensures !Bindable(w, 11, 2, 1) && Lossless(w, 11, 2, 1, FAR)
  {
    hide CellOf;
    Places();
    assert NewView(w, 2, 1, FAR) == {};
    w' := After(Bound(w, 11, 2), 2, 1, "", FAR, []);
    assert EnterWith(Bound(w, 11, 2), 2, 1, "", FAR, [], w');
    KeepsForm(w.dims, w.scenes[1], 2, "", FAR);
    assert w.roleConns[1] == 11;
  }

  /** Role 3 enters in the middle, on connection 12, with nobody around. */
  lemma ThirdRole(w: World) returns (w': World)
    requires Formed(w) && w.dims == AT_START.dims && w.scenes.Keys == {1} && w.scenes[1].pos == map[1 := NEAR, 2 := FAR]
    requires w.lobby == map[2 := 11] && w.roleConns == map[1 := 11, 2 := 11] && w.net.log == []
    ensures Step(w, Enter(12, 3, 1, "", MIDDLE), w') && Formed(w') && w'.dims == w.dims && w'.lastMove == w.lastMove
    ensures w'.scenes.Keys == {1} && w'.scenes[1].pos == map[1 := NEAR, 2 := FAR, 3 := MIDDLE]
    ensures w'.lobby == map[2 := 11, 3 := 12] && w'.roleConns == map[1 := 11, 2 := 11, 3 := 12]
    ensures w'.net.log == []
  {
    hide CellOf;
    Places();
    assert NewView(w, 3, 1, MIDDLE) == {};
    w' := After(Bound(w, 12, 3), 3, 1, "", MIDDLE, []);
    assert EnterWith(Bound(w, 12, 3), 3, 1, "", MIDDLE, [], w');
    KeepsForm(w.dims, w.scenes[1], 3, "", MIDDLE);
  }

  /** The world after a move, written out. */
  function AfterMove(w: World, role: int64, m: int64, p: Vec, now: int, l: Lists3): World
    requires w.dims.Ok() && m in w.scenes && role in w.scenes[m].pos && role in w.scenes[m].shown
    requires forall i | 0 <= i < |l.enters| :: l.enters[i] in Moved(w.dims, w.scenes[m], role, p).shown
  {
    var s, conns := Moved(w.dims, w.scenes[m], role, p), w.MoveConns();
    var met := Meet(w.net, conns, s, l.enters, Info(role, "", p));
    w.(scenes := w.scenes[m := s],
       net := Broadcast(Part(met, conns, l.leaves, role), conns, l.visible, role, p),
       lastMove := w.lastMove[role := now],
       saved := w.saved + [Saved(role, p, m)])
  }

  /** Who enters, who leaves and who sees role 3 when it jumps to role 1. */
  lemma JumpLists(pos: map<int64, Vec>)
    requires pos == map[1 := NEAR, 2 := FAR, 3 := NEAR]
    ensures Entering(AT_START.dims, pos, Cell(5, 5), Cell(0, 0)) == {1, 3}
    ensures Entering(AT_START.dims, pos, Cell(0, 0), Cell(5, 5)) == {}
    ensures Neighbours(AT_START.dims, pos, 3) == {1} && Neighbours(AT_START.dims, pos, 2) == {}
  {
    hide CellOf;
    Places();
  }

  const JUMP := Lists3([1, 3], [], [1])

  /** Role 1, 2 and 3 where they are before the jump, with role 1 and 2 on connection 11 for the service. */
  ghost predicate BeforeJump(w: World) {
    && Formed(w) && w.dims == AT_START.dims && w.lastMove == map[] && w.scenes.Keys == {1}
    && w.scenes[1].pos == map[1 := NEAR, 2 := FAR, 3 := MIDDLE]
    && w.lobby == map[2 := 11, 3 := 12] && w.roleConns == map[1 := 11, 2 := 11, 3 := 12]
  }

  lemma JumpShown(w: World)
    requires BeforeJump(w)
    ensures w.dims.Ok() && 1 in w.scenes && 3 in w.scenes[1].pos && 3 in w.scenes[1].shown
    ensures var s := Moved(w.dims, w.scenes[1], 3, NEAR);
            s.pos == map[1 := NEAR, 2 := FAR, 3 := NEAR] && 1 in s.shown && 3 in s.shown
  {
    assert WellShown(w.dims, w.scenes[1], 1) && WellShown(w.dims, w.scenes[1], 3);
  }

  /** Role 3 jumps to role 1. */
  lemma JumpStep(w: World) returns (w': World)
    requires BeforeJump(w)
    ensures w'.dims == w.dims && w'.lobby == w.lobby && w'.scenes.Keys == {1}
    ensures w'.scenes[1].pos == map[1 := NEAR, 2 := FAR, 3 := NEAR]
    ensures w.Holds(1, 3) && 3 in w.scenes[1].shown && MoveWith(w, 3, 1, NEAR, 0, JUMP, w')
  {
    JumpShown(w);
    Places();
    hide CellOf, Entering, Neighbours, Meet, Part, Broadcast, Moved, BeforeJump;
    assert w.scenes[1].pos[3] == MIDDLE && w.dims == AT_START.dims && w.scenes.Keys == {1} by { JumpFrom(w); }
    JumpLists(map[1 := NEAR, 2 := FAR, 3 := NEAR]);
    w' := AfterMove(w, 3, 1, NEAR, 0, JUMP);
  }

  lemma JumpFrom(w: World)
    requires BeforeJump(w)
    ensures w.scenes.Keys == {1} && 3 in w.scenes[1].pos && w.scenes[1].pos[3] == MIDDLE && w.dims == AT_START.dims
  {}

  /** The message about it that is for role 1 goes to the player of role 2. */
  lemma Jump(w: World) returns (w': World)
    requires BeforeJump(w)
    ensures Step(w, Move(3, 50.0, 50.0, 0), w') && w'.dims == w.dims
    ensures w'.Live(2) && w'.Holds(1, 2) && 3 in w'.View(2) && 3 !in Neighbours(w'.dims, w'.scenes[1].pos, 2)
  {
    w' := JumpStep(w);
    hide MoveWith, CellOf, Neighbours;
    JumpLists(w'.scenes[1].pos);
    assert Vec(ClampCoord(50.0), ClampCoord(50.0)) == NEAR;
    assert Permits(w.lastMove, w.interval, 3, 0);
    assert JUMP.enters[0] == 1;
    StrayMove(w, 3, 1, NEAR, 0, JUMP, w', 1, 2);
  }

  /**
   * A run that ends in an untrue view although every entry is lossless: one connection enters as role 1
   * and then, elsewhere, as role 2; role 3 comes to role 1, and the player of role 2 sees it.
   */
  lemma SharedConnectionExample() returns (worlds: seq<World>)
    ensures Run(worlds, [Enter(11, 1, 1, "", NEAR), Enter(11, 2, 1, "", FAR), Enter(12, 3, 1, "", MIDDLE),
                         Move(3, 50.0, 50.0, 0)])
    ensures Sound(worlds[1]) && !Bindable(worlds[1], 11, 2, 1) && Lossless(worlds[1], 11, 2, 1, FAR)
    ensures worlds[4].Live(2) && worlds[4].Holds(1, 2)
    ensures 3 in worlds[4].View(2) && 3 !in Neighbours(worlds[4].dims, worlds[4].scenes[1].pos, 2)
  {
    hide Sound, Step, Formed, Bindable, Lossless;
    var w1 := FirstEntry();
    var w2 := SecondRole(w1);
    var w3 := ThirdRole(w2);
    var w4 := Jump(w3);
    worlds := [AT_START, w1, w2, w3, w4];
  }
}
