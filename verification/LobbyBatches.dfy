/** Write-back of many roles, and sweeps over many connections: what they come to, and whether the order matters. */
module LobbyBatches {
  import opened GoTypes
  import opened Geometry
  import opened RedisText
  import opened LobbyModel
  import opened LobbyRuns
  import opened WriteBack

  /** A batch write-back treats each listed role by itself: neither the order nor repetitions matter. */
  lemma {:induction false} WrittenBackAllAt(roles: map<int64, Role>, cache: map<int64, Cached>, ids: seq<int64>,
                                              r: int64)
    ensures WrittenBackAll(roles, cache, ids).Keys == roles.Keys
    ensures r in roles ==>
            WrittenBackAll(roles, cache, ids)[r] == if r in ids then WrittenBack(roles, cache, r)[r] else roles[r]
  {
    hide GetPosition;
    if ids == [] {
    } else {
      var init := ids[..|ids| - 1];
      WrittenBackAllAt(roles, cache, init, r);
      assert ids == init + [ids[|ids| - 1]];
    }
  }

  /** After SyncPosition the database has the last position exactly as for signing off, if the role is listed. */
  lemma SyncPositionIff(s: State, ids: seq<int64>, r: int64)
    requires InOrder(s) && r in s.last
    ensures Stored(s.(roles := WrittenBackAll(s.roles, s.cache, ids)), r, s.last[r]) <==>
            if r in ids && r in s.cache && Fractional(CachedAt(s, r)) then CachedAt(s, r) == s.last[r]
            else Stored(s, r, s.last[r])
  {
    if r in s.cache { ReadBack(s, r); }
    WrittenBackAllAt(s.roles, s.cache, ids, r);
  }

  /** In use, so that a sweep can time it out. */
  predicate Due(s: State, c: int64) {
    c in s.conns && (s.conns[c].state == Auth || s.conns[c].state == InScene)
  }

  predicate AllDue(s: State, order: seq<int64>) {
    forall i | 0 <= i < |order| :: Due(s, order[i])
  }

  ghost function RolesOn(s: State, cs: set<int64>): set<int64> {
    set c | c in cs && c in s.conns && s.conns[c].state == InScene && s.conns[c].role > 0 :: s.conns[c].role
  }

  ghost function TokensOn(s: State, cs: set<int64>): set<int64> {
    set c | c in cs && c in s.conns && s.conns[c].session.Some? :: s.conns[c].session.value
  }

  function SavedRow(s: State, r: int64): Role
    requires r in s.roles
  {
    SavedRoles(s.roles, s.cache, r)[r]
  }

  /** What a sweep is meant to do: all connections of cs are cleaned up and gone. */
  ghost function Swept(s: State, cs: set<int64>): State {
    var gone := RolesOn(s, cs);
    s.(conns := s.conns - cs, sessions := s.sessions - TokensOn(s, cs), cache := s.cache - gone,
       roles := map r | r in s.roles :: if r in gone then SavedRow(s, r) else s.roles[r],
       scenes := if 0 in s.scenes then s.scenes[0 := s.scenes[0] - gone] else s.scenes)
  }

  lemma SweptNone(s: State)
    ensures Swept(s, {}) == s
  {
    var t := Swept(s, {});
    assert t.roles == s.roles && t.cache == s.cache && t.sessions == s.sessions && t.conns == s.conns;
    assert RolesOn(s, {}) == {};
    if 0 in s.scenes {
      assert s.scenes[0] - RolesOn(s, {}) == s.scenes[0];
    }
    assert t.scenes == s.scenes;
  }

  /** The role that connection c signs off, if any. */
  ghost function RoleOn(s: State, c: int64): set<int64>
    requires c in s.conns
  {
    if s.conns[c].state == InScene && s.conns[c].role > 0 then {s.conns[c].role} else {}
  }

  ghost function TokenOn(s: State, c: int64): set<int64>
    requires c in s.conns
  {
    if s.conns[c].session.Some? then {s.conns[c].session.value} else {}
  }

  lemma SweptRoles(s: State, cs: set<int64>, role: int64)
    ensures var gone := RolesOn(s, cs);
            SavedRoles(Swept(s, cs).roles, Swept(s, cs).cache, role) ==
            map r | r in s.roles :: if r in gone + {role} then SavedRow(s, r) else s.roles[r]
  {
    hide FloatOf, IntOf;
  }

  lemma SweptScenes(s: State, cs: set<int64>, role: int64)
    ensures SceneLeave(Swept(s, cs).scenes, role, 0) ==
            if 0 in s.scenes then s.scenes[0 := s.scenes[0] - (RolesOn(s, cs) + {role})] else s.scenes
  {
    hide SavedRow;
    if 0 in s.scenes {
      var gone := RolesOn(s, cs);
      assert (s.scenes[0] - gone) - {role} == s.scenes[0] - (gone + {role});
    }
  }

  lemma OneMoreConn(s: State, cs: set<int64>, c: int64)
    requires c in s.conns && c !in cs
    ensures RolesOn(s, cs + {c}) == RolesOn(s, cs) + RoleOn(s, c)
    ensures TokensOn(s, cs + {c}) == TokensOn(s, cs) + TokenOn(s, c)
    ensures c in s.conns - cs && (s.conns - cs)[c] == s.conns[c] && s.conns - (cs + {c}) == (s.conns - cs) - {c}
    ensures s.sessions - (TokensOn(s, cs) + TokenOn(s, c)) == (s.sessions - TokensOn(s, cs)) - TokenOn(s, c)
  {
  }

  /** What cleaning up one connection is meant to do: it goes out of the table, too, and the table stays open. */
  function CleanedUp(s: State, c: int64): State
    requires c in s.conns
  {
    TimedOut(s, c).(conns := s.conns - {c}, locked := s.locked)
  }

  lemma CleanedUpParts(s: State, c: int64)
    requires Due(s, c)
    ensures CleanedUp(s, c) ==
            (if RoleOn(s, c) != {} then SignedOff(s, s.conns[c].role) else s)
              .(sessions := s.sessions - TokenOn(s, c), conns := s.conns - {c})
  {
    hide SavedRoles, SceneLeave;
    assert s.sessions - {} == s.sessions;
  }

  lemma SweptMore(s: State, cs: set<int64>, c: int64)
    requires Due(s, c) && c !in cs
    ensures CleanedUp(Swept(s, cs), c) == Swept(s, cs + {c})
  {
    hide SavedRow, SavedRoles, SceneLeave, RolesOn, TokensOn, CleanedUp;
    OneMoreConn(s, cs, c);
    CleanedUpParts(Swept(s, cs), c);
    var gone, role := RolesOn(s, cs), s.conns[c].role;
    if RoleOn(s, c) != {} {
      SweptRoles(s, cs, role);
      SweptScenes(s, cs, role);
      assert s.cache - (gone + {role}) == (s.cache - gone) - {role};
    } else {
      assert gone + {} == gone;
    }
  }

  function AllCleanedUp(s: State, order: seq<int64>): State {
    if order == [] then s
    else
      var before := AllCleanedUp(s, order[..|order| - 1]);
      if order[|order| - 1] in before.conns then CleanedUp(before, order[|order| - 1]) else before
  }

  /** As it is meant, a sweep comes to the same whatever the order in which it visits the connections. */
  lemma {:induction false} SweepIgnoresOrder(s: State, order: seq<int64>)
    requires AllDue(s, order)
    ensures AllCleanedUp(s, order) == Swept(s, Elements(order))
  {
    if order == [] {
      SweptNone(s);
      assert Elements(order) == {};
    } else {
      var init, c := order[..|order| - 1], order[|order| - 1];
      SweepIgnoresOrder(s, init);
      assert order == init + [c];
      assert Elements(order) == Elements(init) + {c};
      if c in init {
        assert Elements(order) == Elements(init);
      } else {
        SweptMore(s, Elements(init), c);
      }
    }
  }

  // ---------------------------------------------------------------------
  // The sweep as it is
  // ---------------------------------------------------------------------

  /** After a sweep all connections are still in the table, and all but the first it came to are still in use. */
  lemma SweepStops(s: State, order: seq<int64>)
    requires order != [] && AllDue(s, order)
    ensures var t := SweptInOrder(s, order);
            && t.locked && t.conns.Keys == s.conns.Keys && t.conns[order[0]].state == Closed
            && forall c | c in s.conns && c != order[0] :: t.conns[c] == s.conns[c]
  {
    assert Due(s, order[0]);
  }

  /** The sweep does what it is meant to exactly if no heartbeat is overdue. */
  lemma SweepAsMeantIff(s: State, order: seq<int64>)
    requires AllDue(s, order)
    ensures SweptInOrder(s, order) == Swept(s, Elements(order)) <==> order == []
  {
    if order == [] {
      SweptNone(s);
      assert Elements(order) == {};
    } else {
      SweepStops(s, order);
      assert order[0] in Elements(order);
      assert order[0] in SweptInOrder(s, order).conns && order[0] !in Swept(s, Elements(order)).conns;
    }
  }

  /** Timing out different connections comes to different things. */
  lemma TimeoutsDiffer(s: State, a: int64, b: int64)
    requires Due(s, a) && Due(s, b)
    ensures TimedOut(s, a) == TimedOut(s, b) <==> a == b
  {
    if a != b {
      assert TimedOut(s, a).conns[a].state == Closed && TimedOut(s, b).conns[a].state != Closed;
    }
  }

  /** Two visits of the same overdue connections in different orders. */
  ghost predicate OrdersDiffer(s: State, due: set<int64>, o1: seq<int64>, o2: seq<int64>) {
    Lists(o1, due) && Lists(o2, due) && SweptInOrder(s, o1) != SweptInOrder(s, o2)
  }

  /** The order in which a sweep visits the connections matters exactly if two different ones are overdue. */
  lemma OrderMattersIff(s: State, due: set<int64>)
    requires forall c: int64 | c in due :: Due(s, c)
    ensures (exists o1, o2 :: OrdersDiffer(s, due, o1, o2)) <==>
            (exists a: int64, b: int64 :: a in due && b in due && a != b)
  {
    if a: int64, b: int64 :| a in due && b in due && a != b {
      var o1 := ListingFrom(due, a);
      var o2 := ListingFrom(due, b);
      TimeoutsDiffer(s, a, b);
      assert OrdersDiffer(s, due, o1, o2);
    }
    if o1, o2 :| OrdersDiffer(s, due, o1, o2) {
      assert o1 != [] && o2 != [];
      assert o1[0] in due && o2[0] in due && o1[0] != o2[0];
    }
  }
}
