/** A run that shows what becomes of a new role's position. */
module NewRole {
  import opened GoTypes
  import opened Geometry
  import opened RedisText
  import opened LobbyModel
  import opened LobbyRuns
  import opened WriteBack

  const HUNDRED := Decimal(false, [49, 48, 48], [])

  /** How the cache's client writes the position of a new role. */
  const AS_CREATED := Written(HUNDRED, HUNDRED)

  lemma HundredIsWritten()
    ensures Writes(AS_CREATED, 100.0, 100.0)
  {
    assert [49, 48, 48][1..] == [48, 48] && [48, 48][1..] == [48] && [48][1..] == [];
    assert Pow10(2) == 100 && Pow10(1) == 10;
  }

  lemma RunGrows(states: seq<State>, evs: seq<Event>, ev: Event) returns (more: seq<State>)
    requires Run(states, evs) && Fair(states[|evs|], ev)
    ensures more == states + [Next(states[|evs|], ev)] && |states| == |evs| + 1 && Run(more, evs + [ev])
  {
    hide Next, Fair;
    more := states + [Next(states[|evs|], ev)];
    forall i | 0 <= i < |evs + [ev]|
      ensures Fair(more[i], (evs + [ev])[i]) && more[i + 1] == Next(more[i], (evs + [ev])[i])
    {
      if i < |evs| {
        assert more[i] == states[i] && more[i + 1] == states[i + 1] && (evs + [ev])[i] == evs[i];
      }
    }
  }

  /** Before anybody registers. */
  const NOBODY := State(map[], map[], map[], map[], map[], map[1 := map[]], map[], false)

  /** Account 1, logged in on connection 11 with session 7. */
  const LOGGED_IN := NOBODY.(accounts := map[1 := "ann"], sessions := map[7 := 1],
                             conns := map[11 := Conn(Auth, Some(7), 0, None)])

  lemma LoggedIn() returns (states: seq<State>)
    ensures Run(states, [Register(1, "ann"), Connect(11), Login(11, 1, 7)])
    ensures |states| == 4 && states[3] == LOGGED_IN
  {
    var registered := NOBODY.(accounts := map[1 := "ann"]);
    var connected := registered.(conns := map[11 := Conn(Init, None, 0, None)]);
    assert Next(NOBODY, Register(1, "ann")) == registered;
    assert Next(registered, Connect(11)) == connected;
    assert Next(connected, Login(11, 1, 7)) == LOGGED_IN;
    hide Next;
    states := [NOBODY, registered, connected, LOGGED_IN];
  }

  lemma RoleCreated()
    ensures var created := Next(LOGGED_IN, CreateRole(7, "Ann", 5));
            && created == LOGGED_IN.(roles := map[5 := Role(1, "Ann", 1, 100.0, 100.0)])
            && Owns(created, 7, 5) && Stored(created, 5, Vec(100.0, 100.0))
  {
    assert RolesOf(LOGGED_IN, 1) == {};
  }

  lemma BindsConn(s: State, c: int64, t: int64, r: int64)
    requires c in s.conns
    ensures c in Entered(s, c, t, r, AS_CREATED).conns
  {}

  /** However a run got there, a role that was just created loses its position by entering and reconnecting. */
  lemma EntersAndReconnects(states: seq<State>, evs: seq<Event>, c: int64, t: int64, r: int64)
    returns (more: seq<State>)
    requires Run(states, evs) && c in states[|evs|].conns
    requires Owns(states[|evs|], t, r) && Stored(states[|evs|], r, Vec(100.0, 100.0))
    ensures Run(more, evs + [EnterScene(c, t, r, AS_CREATED)] + [Reconnect(c, t, r)]) && |more| == |evs| + 3
    ensures In1(more[|evs| + 2], r) && more[|evs| + 2].scenes[1][r] == Place(None, None)
  {
    var s := states[|evs|];
    HundredIsWritten();
    RunInOrder(states, evs, |evs|);
    NewRoleLosesPosition(s, c, t, r, AS_CREATED);
    hide Run, InOrder, Entered, Reconnected, Writes, Stored;
    BindsConn(s, c, t, r);
    var entered := RunGrows(states, evs, EnterScene(c, t, r, AS_CREATED));
    more := RunGrows(entered, evs + [EnterScene(c, t, r, AS_CREATED)], Reconnect(c, t, r));
  }

  /** A run from nothing: register, connect, log in, create a role, enter, reconnect; the role is at no position. */
  lemma NewRoleExample() returns (states: seq<State>)
    ensures Run(states, [Register(1, "ann"), Connect(11), Login(11, 1, 7), CreateRole(7, "Ann", 5),
                         EnterScene(11, 7, 5, AS_CREATED), Reconnect(11, 7, 5)]) && |states| == 7
    ensures In1(states[6], 5) && states[6].scenes[1][5] == Place(None, None)
  {
    hide Next, Run, Owns, Stored;
    var login := [Register(1, "ann"), Connect(11), Login(11, 1, 7)];
    var create, enter, again := CreateRole(7, "Ann", 5), EnterScene(11, 7, 5, AS_CREATED), Reconnect(11, 7, 5);
    var before := LoggedIn();
    RoleCreated();
    var created := RunGrows(before, login, create);
    states := EntersAndReconnects(created, login + [create], 11, 7, 5);
    assert login + [create] + [enter] + [again] ==
           [Register(1, "ann"), Connect(11), Login(11, 1, 7), create, enter, again];
  }
}
