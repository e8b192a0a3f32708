/**
 * A role on two connections. The lobby looks for a role's connection in a table from connections to roles, and
 * takes any that it finds.
 */
module SecondConnection {
  import opened GoTypes
  import opened Geometry
  import opened Grid
  import opened SceneModel
  import opened AoiWorld
  import opened Views
  import opened Reentry

  predicate Plays(table: map<int64, int64>, c: int64, role: int64) {
    c in table && table[c] == role
  }

  /** lobby is what the search may come up with: for each role that is played, one of its connections. */
  ghost predicate Finds(table: map<int64, int64>, lobby: map<int64, int64>) {
    && (forall r: int64 | r in lobby :: Plays(table, lobby[r], r))
    && (forall c: int64, r: int64 | Plays(table, c, r) :: r in lobby)
  }

  ghost function Chosen(table: map<int64, int64>): (lobby: map<int64, int64>)
    ensures Finds(table, lobby)
  {
    map c | c in table :: table[c] := (assert Plays(table, c, table[c]); ConnOf(table, table[c]))
  }

  ghost function ConnOf(table: map<int64, int64>, role: int64): (c: int64)
    requires exists c: int64 :: Plays(table, c, role)
    ensures Plays(table, c, role)
  {
    var c: int64 :| Plays(table, c, role);
    c
  }

  /** Any connection of a role may be the one that is found. */
  lemma AnyIsFound(table: map<int64, int64>, c: int64, role: int64) returns (lobby: map<int64, int64>)
    requires Plays(table, c, role)
    ensures Finds(table, lobby) && role in lobby && lobby[role] == c
  {
    lobby := Chosen(table)[role := c];
  }

  /** The client on c sees exactly the players around its role. */
  ghost predicate SeesOn(w: World, c: int64, m: int64, role: int64)
    requires w.dims.Ok() && w.Holds(m, role)
  {
    Replay(w.net.log, c) - {role} == Neighbours(w.dims, w.scenes[m].pos, role)
  }

  /** A role enters on an unused connection c; whoever it is, the search finds the connections of lobby. */
  lemma EntrantSeesIff(w: World, table: map<int64, int64>, lobby: map<int64, int64>, c: int64, role: int64, m: int64,
                       name: string, p: Vec, others: seq<int64>, w': World)
    requires Formed(w) && Plays(table, c, role) && Finds(table, lobby) && Unused(w.net.log, c)
    requires EnterWith(w.(lobby := lobby), role, m, name, p, others, w')
    ensures w'.dims == w.dims && w'.Holds(m, role) && role in lobby
    ensures SeesOn(w', c, m, role) <==> lobby[role] == c || NewView(w, role, m, p) == {}
  {
    var s := Added(w.dims, w.SceneOf(m), role, name, p);
    if m !in w.scenes {
      forall o: int64 ensures WellShown(w.dims, EMPTY_SCENE, o) {}
    }
    KeepsForm(w.dims, w.SceneOf(m), role, name, p);
    assert forall i | 0 <= i < |others| :: WellShown(w.dims, s, others[i]);
    GreetView(w.net, lobby, s, others, Info(role, name, p), c);
    UnusedShowsNobody(w.net.log, c);
    ListsElements(others, NewView(w, role, m, p));
  }

  /** The outcome of an entry for some result of the search is an untrue view. */
  ghost predicate Misled(w: World, table: map<int64, int64>, c: int64, role: int64, m: int64, name: string, p: Vec,
                         lobby: map<int64, int64>, others: seq<int64>, w': World)
    requires w.dims.Ok()
  {
    && Finds(table, lobby) && EnterWith(w.(lobby := lobby), role, m, name, p, others, w')
    && w'.dims == w.dims && w'.Holds(m, role) && !SeesOn(w', c, m, role)
  }

  /**
   * The client of a role that enters on an unused connection may be misled if and only if another connection
   * plays the role, too, and somebody is around: then the search may find the other one.
   */
  lemma MisledIff(w: World, table: map<int64, int64>, c: int64, role: int64, m: int64, name: string, p: Vec)
    requires Formed(w) && Plays(table, c, role) && Unused(w.net.log, c)
    ensures (exists lobby, others, w' :: Misled(w, table, c, role, m, name, p, lobby, others, w')) <==>
            (exists d: int64 :: d != c && Plays(table, d, role)) && NewView(w, role, m, p) != {}
  {
    if lobby, others, w' :| Misled(w, table, c, role, m, name, p, lobby, others, w') {
      EntrantSeesIff(w, table, lobby, c, role, m, name, p, others, w');
      assert Plays(table, lobby[role], role);
    }
    if d: int64 :| d != c && Plays(table, d, role) && NewView(w, role, m, p) != {} {
      var lobby := AnyIsFound(table, d, role);
      var others := SomeListing(NewView(w, role, m, p));
      ShownAround(w, role, m, name, p, others);
      var w' := After(w.(lobby := lobby), role, m, name, p, others);
      assert EnterWith(w.(lobby := lobby), role, m, name, p, others, w');
      EntrantSeesIff(w, table, lobby, c, role, m, name, p, others, w');
      assert Misled(w, table, c, role, m, name, p, lobby, others, w');
    }
  }

  lemma ShownAround(w: World, role: int64, m: int64, name: string, p: Vec, others: seq<int64>)
    requires Formed(w) && Lists(others, NewView(w, role, m, p))
    ensures forall i | 0 <= i < |others| :: others[i] in Added(w.dims, w.SceneOf(m), role, name, p).shown
  {
    forall i | 0 <= i < |others| ensures others[i] in Added(w.dims, w.SceneOf(m), role, name, p).shown {
      assert w.Holds(m, others[i]) && WellShown(w.dims, w.scenes[m], others[i]);
    }
  }

  /**
   * A run that ends so: two players meet; the first connects again, where it is, while its old connection
   * lingers; the list of those around goes to the old one, and the new client sees nobody.
   */
  lemma SecondConnectionExample() returns (worlds: seq<World>, last: World)
    ensures Run(worlds, [Enter(11, 1, 1, "", NEAR), Enter(12, 2, 1, "", NEAR)]) && |worlds| == 3
    ensures last.dims == worlds[2].dims && last.Holds(1, 1) && !SeesOn(last, 13, 1, 1)
    ensures exists lobby, others ::
      Misled(worlds[2], map[11 := 1, 12 := 2, 13 := 1], 13, 1, 1, "", NEAR, lobby, others, last)
  {
    hide Sound, Step, Misled, NewView;
    var w1 := FirstEntry();
    var w2 := SecondEntry(w1);
    worlds := [AT_START, w1, w2];
    last := Reconnected(w2);
  }

  lemma Reconnected(w: World) returns (w': World)
    requires Sound(w) && w.dims == AT_START.dims && w.scenes.Keys == {1} && Unused(w.net.log, 13)
    requires w.scenes[1].pos == map[1 := NEAR, 2 := NEAR]
    ensures w'.dims == w.dims && w'.Holds(1, 1) && !SeesOn(w', 13, 1, 1)
    ensures exists lobby, others :: Misled(w, map[11 := 1, 12 := 2, 13 := 1], 13, 1, 1, "", NEAR, lobby, others, w')
  {
    var table := map[11 := 1, 12 := 2, 13 := 1];
    assert Plays(table, 11, 1) && Plays(table, 13, 1);
    assert 2 in NewView(w, 1, 1, NEAR);
    MisledIff(w, table, 13, 1, 1, "", NEAR);
    var lobby, others, found :| Misled(w, table, 13, 1, 1, "", NEAR, lobby, others, found);
    w' := found;
  }
}
