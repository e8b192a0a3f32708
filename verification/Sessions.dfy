/**
 * Since when an account or a role exists, a session is valid, a connection has it, is in use, or plays a role: told by
 * the steps of a run.
 */
module Sessions {
  import opened GoTypes
  import opened Geometry
  import opened RedisText
  import opened LobbyModel
  import opened LobbyRuns

  /** What there is to know about an account, a role, a token or a connection. */
  datatype Fact =
    | Registered(account: int64, username: string)
    | Row(role: int64, account: int64, name: string)
    | Valid(token: int64, account: int64)
    | Carries(conn: int64, token: int64)
    | Used(conn: int64)
    | Plays(conn: int64, role: int64, account: int64)

  predicate Holds(s: State, f: Fact) {
    match f
    case Registered(a, name) => a in s.accounts && s.accounts[a] == name
    case Row(r, a, name) => r in s.roles && s.roles[r].account == a && s.roles[r].name == name
    case Valid(t, a) => t in s.sessions && s.sessions[t] == a
    case Carries(c, t) => c in s.conns && s.conns[c].session == Some(t)
    case Used(c) => InUse(s, c)
    case Plays(c, r, a) => c in s.conns && s.conns[c].state == InScene && s.conns[c].role == r
                           && s.conns[c].account == Some(a)
  }

  predicate InUse(s: State, c: int64) {
    c in s.conns && (s.conns[c].state == Auth || s.conns[c].state == InScene)
  }

  /** The session is one of the account that owns the role. */
  predicate May(s: State, t: int64, r: int64) {
    t in s.sessions && r in s.roles && s.roles[r].account == s.sessions[t]
  }

  /** A role is created exactly for a session whose account has fewer than three, under a name nobody has. */
  ghost predicate MayCreate(s: State, t: int64, name: string) {
    && t in s.sessions && (forall q | q in s.roles :: s.roles[q].name != name)
    && |set q | q in s.roles && s.roles[q].account == s.sessions[t]| < 3
  }

  /** The step enters or reconnects on connection c, with a role that the session may play. */
  predicate Binds(s: State, ev: Event, c: int64) {
    match ev
    case EnterScene(k, t, r, _) => k == c && May(s, t, r)
    case Reconnect(k, t, r) => k == c && May(s, t, r)
    case _ => false
  }

  /** The step makes it so. */
  ghost predicate Starts(s: State, ev: Event, f: Fact) {
    match f
    case Registered(a, name) =>
      ev.Register? && ev.account == a && ev.username == name && forall b | b in s.accounts :: s.accounts[b] != name
    case Row(r, a, name) =>
      ev.CreateRole? && ev.role == r && ev.name == name && MayCreate(s, ev.token, name) && s.sessions[ev.token] == a
    case Valid(t, a) => ev.Login? && ev.token == t && ev.account == a
    case Carries(c, t) =>
      (ev.Login? && ev.conn == c && ev.token == t) || (ev.Reconnect? && Binds(s, ev, c) && ev.token == t)
    case Used(c) => (ev.Login? && ev.conn == c) || Binds(s, ev, c)
    case Plays(c, r, a) => Binds(s, ev, c) && ev.role == r && s.sessions[ev.token] == a
  }

  /** The step times out connection c. */
  predicate Closes(s: State, ev: Event, c: int64) {
    ev.Timeout? && ev.conn == c && !s.locked && InUse(s, c)
  }

  /** The step logs out, with a session, on connection c. */
  predicate LogsOut(s: State, ev: Event, c: int64) {
    ev.Logout? && ev.conn == c && ev.token in s.sessions
  }

  predicate TakesAway(s: State, ev: Event, c: int64) {
    ev.Disconnect? && ev.conn == c && !s.locked
  }

  /** The step puts an end to it. */
  predicate Stops(s: State, ev: Event, f: Fact) {
    match f
    case Registered(_, _) => false
    case Row(_, _, _) => false
    case Valid(t, _) =>
      || (ev.Logout? && ev.token == t) || (ev.Expire? && ev.token == t)
      || (ev.Timeout? && Closes(s, ev, ev.conn) && s.conns[ev.conn].session == Some(t))
    case Carries(c, _) =>
      || (ev.Login? && ev.conn == c) || (ev.Reconnect? && Binds(s, ev, c))
      || LogsOut(s, ev, c) || TakesAway(s, ev, c)
    case Used(c) => LogsOut(s, ev, c) || Closes(s, ev, c) || TakesAway(s, ev, c)
    case Plays(c, _, _) =>
      || (ev.Login? && ev.conn == c) || Binds(s, ev, c)
      || LogsOut(s, ev, c) || Closes(s, ev, c) || TakesAway(s, ev, c)
  }

  // ---------------------------------------------------------------------
  // Steps
  // ---------------------------------------------------------------------

  /** s' is s, and what is known afterwards is what the step started, or what was known and it did not stop. */
  ghost predicate Told(s: State, ev: Event, s': State, f: Fact) {
    Holds(s', f) <==> Starts(s, ev, f) || (Holds(s, f) && !Stops(s, ev, f))
  }

  lemma EnterTold(s: State, ev: Event, f: Fact)
    requires ev.EnterScene? && ev.conn in s.conns && !About(f)
    ensures Told(s, ev, Entered(s, ev.conn, ev.token, ev.role, ev.written), f)
  {
    EnterBinds(s, ev.conn, ev.token, ev.role, ev.written);
    hide Entered;
  }

  /** A row of the database. */
  predicate About(f: Fact) {
    f.Registered? || f.Row?
  }

  lemma EnterBinds(s: State, c: int64, t: int64, r: int64, w: Written)
    requires c in s.conns
    ensures var s' := Entered(s, c, t, r, w);
            && s'.sessions == s.sessions && s'.roles == s.roles && s'.accounts == s.accounts
            && s'.conns == if Owns(s, t, r)
                           then s.conns[c := Conn(InScene, s.conns[c].session, r, Some(s.sessions[t]))] else s.conns
  {
    hide SceneEnter, SetPosition;
    if Owns(s, t, r) {
      var s', conn := Entered(s, c, t, r, w), Conn(InScene, s.conns[c].session, r, Some(s.sessions[t]));
      assert s' == s.(conns := s.conns[c := conn], cache := s'.cache, scenes := s'.scenes, last := s'.last);
    }
  }

  lemma ReconnectTold(s: State, ev: Event, f: Fact)
    requires ev.Reconnect? && ev.conn in s.conns && !About(f)
    ensures Told(s, ev, Reconnected(s, ev.conn, ev.token, ev.role), f)
  {
    ReconnectBinds(s, ev.conn, ev.token, ev.role);
    ReconnectKeepsSessions(s, ev.conn, ev.token, ev.role);
    hide Reconnected;
  }

  lemma ReconnectKeepsSessions(s: State, c: int64, t: int64, r: int64)
    requires c in s.conns
    ensures Reconnected(s, c, t, r).sessions == s.sessions && Reconnected(s, c, t, r).accounts == s.accounts
  {
    hide GetPosition, SceneEnter;
    var s' := Reconnected(s, c, t, r);
    assert s' == s.(conns := s'.conns, scenes := s'.scenes, last := s'.last);
  }

  lemma LogoutTold(s: State, ev: Event, f: Fact)
    requires ev.Logout? && ev.conn in s.conns && !About(f)
    ensures Told(s, ev, LoggedOut(s, ev.conn, ev.token), f)
  {
    hide SavedRoles, SceneLeave;
  }

  lemma TimeoutTold(s: State, ev: Event, f: Fact)
    requires ev.Timeout? && ev.conn in s.conns && !s.locked && !About(f)
    ensures Told(s, ev, TimedOut(s, ev.conn), f)
  {
    hide SavedRoles, SceneLeave;
  }

  lemma MoveKeepsSessions(s: State, r: int64, m: int64, x: real, y: real, allowed: bool, reached: bool, w: Written)
    ensures var s' := MovedTo(s, r, m, x, y, allowed, reached, w);
            s'.sessions == s.sessions && s'.accounts == s.accounts
  {
    hide SceneEnter, SetPosition, ClampCoord;
  }

  lemma CreationKeepsSessions(s: State, t: int64, name: string, r: int64)
    ensures Created(s, t, name, r).sessions == s.sessions && Created(s, t, name, r).accounts == s.accounts
  {
    hide NameTaken, RolesOf;
  }

  /** Steps that touch neither connections nor sessions. */
  lemma SameTold(s: State, ev: Event, s': State, f: Fact)
    requires (ev.Register? || ev.CreateRole? || ev.Move? || ev.Sync?) && !About(f)
    requires s'.sessions == s.sessions && s'.conns == s.conns
    ensures Told(s, ev, s', f)
  {}

  lemma QuietTold(s: State, ev: Event, f: Fact)
    requires Fair(s, ev) && (ev.Connect? || ev.Login? || ev.Expire? || ev.Disconnect?) && !About(f)
    ensures Told(s, ev, Next(s, ev), f)
  {}

  lemma LockedTold(s: State, ev: Event, f: Fact)
    requires ev.Timeout? && s.locked && !About(f)
    ensures Told(s, ev, s, f)
  {}

  lemma UseTold(s: State, ev: Event, f: Fact)
    requires Fair(s, ev) && !About(f)
    ensures Told(s, ev, Next(s, ev), f)
  {
    hide Entered, Reconnected, MovedTo, LoggedOut, TimedOut, Created, WrittenBack, Writes, Owns, Told;
    match ev
    case EnterScene(_, _, _, _) => EnterTold(s, ev, f);
    case Reconnect(_, _, _) => ReconnectTold(s, ev, f);
    case Logout(_, _) => LogoutTold(s, ev, f);
    case Timeout(_) => if !s.locked { TimeoutTold(s, ev, f); } else { LockedTold(s, ev, f); }
    case CreateRole(t, name, r) =>
      CreationKeepsSessions(s, t, name, r);
      CreationKeepsTable(s, t, name, r);
      SameTold(s, ev, Next(s, ev), f);
    case Move(r, m, x, y, allowed, reached, w) =>
      MoveKeepsSessions(s, r, m, x, y, allowed, reached, w);
      MoveKeepsTable(s, r, m, x, y, allowed, reached, w);
      SameTold(s, ev, Next(s, ev), f);
    case Register(_, _) => SameTold(s, ev, Next(s, ev), f);
    case Sync(_) => SameTold(s, ev, Next(s, ev), f);
    case _ => QuietTold(s, ev, f);
  }

  /** The same accounts, and the same roles with the same accounts and names. */
  ghost predicate SameRows(s: State, s': State) {
    && s'.accounts == s.accounts && s'.roles.Keys == s.roles.Keys
    && forall r | r in s.roles :: s'.roles[r].account == s.roles[r].account && s'.roles[r].name == s.roles[r].name
  }

  lemma SavingKeepsRows(s: State, q: int64)
    ensures SameRows(s, Synced(s, q)) && SameRows(s, SignedOff(s, q))
  {
    hide FloatOf, IntOf;
  }

  lemma LogoutKeepsRows(s: State, c: int64, t: int64)
    requires c in s.conns
    ensures SameRows(s, LoggedOut(s, c, t))
  {
    SavingKeepsRows(s, s.conns[c].role);
    hide SignedOff;
    var off, s' := if s.conns[c].role > 0 then SignedOff(s, s.conns[c].role) else s, LoggedOut(s, c, t);
    assert t in s.sessions ==> s' == off.(sessions := s'.sessions, conns := s'.conns);
  }

  lemma TimeoutKeepsRows(s: State, c: int64)
    requires c in s.conns
    ensures SameRows(s, TimedOut(s, c))
  {
    var conn, s' := s.conns[c], TimedOut(s, c);
    SavingKeepsRows(s, conn.role);
    hide SignedOff;
    var off := if conn.role > 0 && conn.state == InScene then SignedOff(s, conn.role) else s;
    assert InUse(s, c) ==> s' == off.(sessions := s'.sessions, conns := s'.conns, locked := true);
  }

  lemma SameRowsTold(s: State, ev: Event, s': State, f: Fact)
    requires About(f) && SameRows(s, s') && !ev.Register? && !ev.CreateRole?
    ensures Told(s, ev, s', f)
  {}

  lemma CreatedIff(s: State, t: int64, name: string, r: int64)
    ensures Created(s, t, name, r) ==
            if MayCreate(s, t, name) then s.(roles := s.roles[r := Role(s.sessions[t], name, 1, 100.0, 100.0)]) else s
  {
    if t in s.sessions {
      assert RolesOf(s, s.sessions[t]) == set q | q in s.roles && s.roles[q].account == s.sessions[t];
    }
  }

  lemma CreationTold(s: State, ev: Event, f: Fact)
    requires ev.CreateRole? && ev.role !in s.roles && About(f)
    ensures Told(s, ev, Created(s, ev.token, ev.name, ev.role), f)
  {
    CreatedIff(s, ev.token, ev.name, ev.role);
    hide Created;
  }

  lemma RegistrationTold(s: State, ev: Event, f: Fact)
    requires ev.Register? && Fair(s, ev) && About(f)
    ensures Told(s, ev, Next(s, ev), f)
  {
    assert ev.username in s.accounts.Values <==> exists b :: b in s.accounts && s.accounts[b] == ev.username;
  }

  lemma QuietKeepsRows(s: State, ev: Event)
    requires Fair(s, ev) && (ev.Connect? || ev.Login? || ev.Expire? || ev.Disconnect?)
    ensures SameRows(s, Next(s, ev))
  {}

  lemma RowTold(s: State, ev: Event, f: Fact)
    requires Fair(s, ev) && About(f)
    ensures Told(s, ev, Next(s, ev), f)
  {
    hide Entered, Reconnected, MovedTo, LoggedOut, TimedOut, Created, Synced, Writes, Owns, Told, About;
    match ev
    case Register(_, _) => RegistrationTold(s, ev, f);
    case CreateRole(_, _, _) => CreationTold(s, ev, f);
    case EnterScene(c, t, r, w) =>
      EnterBinds(s, c, t, r, w);
      SameRowsTold(s, ev, Next(s, ev), f);
    case Reconnect(c, t, r) =>
      ReconnectBinds(s, c, t, r);
      ReconnectKeepsSessions(s, c, t, r);
      SameRowsTold(s, ev, Next(s, ev), f);
    case Move(r, m, x, y, allowed, reached, w) =>
      MoveKeepsSessions(s, r, m, x, y, allowed, reached, w);
      MoveKeepsTable(s, r, m, x, y, allowed, reached, w);
      SameRowsTold(s, ev, Next(s, ev), f);
    case Logout(c, t) =>
      LogoutKeepsRows(s, c, t);
      SameRowsTold(s, ev, Next(s, ev), f);
    case Timeout(c) =>
      TimeoutKeepsRows(s, c);
      SameRowsTold(s, ev, Next(s, ev), f);
    case Sync(q) =>
      SavingKeepsRows(s, q);
      SameRowsTold(s, ev, Next(s, ev), f);
    case _ =>
      QuietKeepsRows(s, ev);
      SameRowsTold(s, ev, Next(s, ev), f);
  }

  /** Every step starts and stops exactly these facts. */
  lemma StepTold(s: State, ev: Event, f: Fact)
    requires Fair(s, ev)
    ensures Told(s, ev, Next(s, ev), f)
  {
    hide Next, Told, Fair;
    if About(f) { RowTold(s, ev, f); } else { UseTold(s, ev, f); }
  }

  // ---------------------------------------------------------------------
  // Runs
  // ---------------------------------------------------------------------

  /** Step i of the run has started it, and none before step n has stopped it. */
  ghost predicate Since(states: seq<State>, evs: seq<Event>, i: nat, n: nat, f: Fact)
    requires n <= |evs| && n < |states|
  {
    i < n && Starts(states[i], evs[i], f) && forall k | i < k < n :: !Stops(states[k], evs[k], f)
  }

  lemma SinceOneMore(states: seq<State>, evs: seq<Event>, n: nat, next: nat, f: Fact)
    requires next == n + 1 && n < |evs| && next < |states|
    ensures (exists i: nat :: Since(states, evs, i, next, f)) <==>
            || Starts(states[n], evs[n], f)
            || (!Stops(states[n], evs[n], f) && exists i: nat :: Since(states, evs, i, n, f))
  {
    hide Starts, Stops;
    if i: nat :| Since(states, evs, i, next, f) {
      if i < n { assert Since(states, evs, i, n, f); }
    }
    if Starts(states[n], evs[n], f) { assert Since(states, evs, n, next, f); }
    if i: nat :| Since(states, evs, i, n, f) {
      if !Stops(states[n], evs[n], f) { assert Since(states, evs, i, next, f); }
    }
  }

  /**
   * Over every run: an account or a role exists under a name, a token is a session of an account, a connection has a
   * token, is in use, or plays a role for an account, exactly if some step has made it so and no later one has put an
   * end to it.
   */
  lemma {:induction false} FactIff(states: seq<State>, evs: seq<Event>, n: nat, f: Fact)
    requires Run(states, evs) && n < |states|
    ensures Holds(states[n], f) <==> exists i: nat :: Since(states, evs, i, n, f)
  {
    hide Next, Starts, Stops, Fair;
    if n == 0 {
    } else {
      FactIff(states, evs, n - 1, f);
      StepTold(states[n - 1], evs[n - 1], f);
      SinceOneMore(states, evs, n - 1, n, f);
    }
  }

  /** What needs the session t. */
  predicate Needs(ev: Event, t: int64) {
    match ev
    case CreateRole(token, _, _) => token == t
    case EnterScene(_, token, _, _) => token == t
    case Reconnect(_, token, _) => token == t
    case Logout(_, token) => token == t
    case _ => false
  }

  lemma NoSessionNoStep(s: State, ev: Event, t: int64)
    requires Fair(s, ev) && Needs(ev, t) && t !in s.sessions
    ensures Next(s, ev) == s
  {
    hide GetPosition, NameTaken, RolesOf, SavedRoles, WrittenBack, SceneLeave, SceneEnter, SetPosition, Writes;
  }

  /** The step ends the session t, whichever account it is of: by logging out, expiring, or timing out. */
  predicate Ends(s: State, ev: Event, t: int64) {
    Stops(s, ev, Valid(t, 0))
  }

  /**
   * Once a session has ended it serves for nothing: not for creating a role, entering, reconnecting or logging
   * out, until logging in issues it anew.
   */
  lemma EndedForGood(states: seq<State>, evs: seq<Event>, i: nat, n: nat, t: int64)
    requires Run(states, evs) && i < n < |states| && Ends(states[i], evs[i], t)
    requires forall k | i < k < n :: !(evs[k].Login? && evs[k].token == t)
    ensures t !in states[n].sessions
    ensures n < |evs| && Needs(evs[n], t) ==> states[n + 1] == states[n]
  {
    hide Next, Fair, Needs;
    if t in states[n].sessions {
      FactIff(states, evs, n, Valid(t, states[n].sessions[t]));
      assert false;
    }
    if n < |evs| && Needs(evs[n], t) { NoSessionNoStep(states[n], evs[n], t); }
  }
}
