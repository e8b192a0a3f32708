/** What a scene amounts to, as a value: who is where, and what the grid reports about them. */
module SceneModel {
  import opened GoTypes
  import opened Geometry

  /** What a message says about a player. */
  datatype Info = Info(id: int64, name: string, pos: Vec)

  /**
   * pos is the entity manager's truth. shown is the grid's entry, which the messages quote; shared
   * are the ids whose entry is the manager's own object. Any other entry is a detached copy.
   */
  datatype SceneState = SceneState(pos: map<int64, Vec>, shown: map<int64, Info>, shared: set<int64>)

  const EMPTY_SCENE := SceneState(map[], map[], {})

  /**
   * Every player is reported, under the own id, and from inside the cell the player is in. What is not the
   * manager's object has no name.
   */
  ghost predicate WellFormed(d: Dims, s: SceneState)
    requires d.Ok()
  {
    forall id: int64 :: WellShown(d, s, id)
  }

  ghost predicate WellShown(d: Dims, s: SceneState, id: int64)
    requires d.Ok()
  {
    && (id in s.shown <==> id in s.pos) && (id in s.shared ==> id in s.pos)
    && (id in s.pos ==> s.shown[id].id == id && CellOf(d, s.shown[id].pos) == CellOf(d, s.pos[id]))
    && (id in s.shared ==> s.shown[id].pos == s.pos[id])
    && (id in s.pos && id !in s.shared ==> s.shown[id].name == "")
  }

  function Added(d: Dims, s: SceneState, id: int64, name: string, p: Vec): SceneState
    requires d.Ok()
  {
    var entered := SceneState(s.pos[id := p], s.shown[id := Info(id, name, p)], s.shared + {id});
    if id in s.pos && CellOf(d, s.pos[id]) == CellOf(d, p) && id !in s.shared then
      entered.(shown := s.shown, shared := s.shared)
    else
      entered
  }

  function Moved(d: Dims, s: SceneState, id: int64, p: Vec): SceneState
    requires d.Ok() && id in s.pos && id in s.shown
  {
    if CellOf(d, s.pos[id]) != CellOf(d, p) then
      SceneState(s.pos[id := p], s.shown[id := Info(id, "", p)], s.shared - {id})
    else if id in s.shared then
      SceneState(s.pos[id := p], s.shown[id := s.shown[id].(pos := p)], s.shared)
    else
      s.(pos := s.pos[id := p])
  }

  function Removed(s: SceneState, id: int64): SceneState {
    SceneState(s.pos - {id}, s.shown - {id}, s.shared - {id})
  }

  lemma KeepsForm(d: Dims, s: SceneState, id: int64, name: string, p: Vec)
    requires d.Ok() && WellFormed(d, s)
    ensures WellFormed(d, Added(d, s, id, name, p)) && WellFormed(d, Removed(s, id))
    ensures WellShown(d, s, id) && (id in s.pos ==> WellFormed(d, Moved(d, s, id, p)))
  {
    var added, removed := Added(d, s, id, name, p), Removed(s, id);
    forall o: int64 ensures WellShown(d, added, o) && WellShown(d, removed, o) {
      assert WellShown(d, s, o);
    }
    assert WellShown(d, s, id);
    if id in s.pos {
      var moved := Moved(d, s, id, p);
      forall o: int64 ensures WellShown(d, moved, o) {
        assert WellShown(d, s, o);
      }
    }
  }

  // ---------------------------------------------------------------------
  // The incremental difference
  // ---------------------------------------------------------------------

  /** The players in the 3x3 block around a cell. */
  ghost function Around(d: Dims, pos: map<int64, Vec>, c: Cell): set<int64>
    requires d.Ok()
  {
    set o: int64 | o in pos && Near(CellOf(d, pos[o]), c)
  }

  lemma AroundIsNeighbours(d: Dims, pos: map<int64, Vec>, id: int64)
    requires d.Ok() && id in pos
    ensures Around(d, pos, CellOf(d, pos[id])) - {id} == Neighbours(d, pos, id)
  {}

  /** What MovePlayer reports: taken after the move, from the blocks around the old and the new cell. */
  ghost function Entering(d: Dims, pos: map<int64, Vec>, from: Cell, to: Cell): set<int64>
    requires d.Ok()
  {
    Around(d, pos, to) - Around(d, pos, from)
  }

  /**
   * The difference is exact. Leaving aside the mover it is what the new view has and the old lacks,
   * and conversely; applied to the old view it gives the new one. The mover is in its own difference
   * exactly when it jumps to a cell that is not near, and then only among those entering.
   */
  lemma MoveDifference(d: Dims, before: map<int64, Vec>, id: int64, p: Vec)
    requires d.Ok() && id in before
    ensures var after := before[id := p];
            var from, to := CellOf(d, before[id]), CellOf(d, p);
            var enter, leave := Entering(d, after, from, to), Entering(d, after, to, from);
            var oldView, newView := Neighbours(d, before, id), Neighbours(d, after, id);
            && enter - {id} == newView - oldView
            && leave == oldView - newView
            && newView == (oldView - leave) + (enter - {id})
            && (id in enter <==> !Near(from, to))
            && id !in leave
  {}

  /** For everyone else, a move changes the view by at most the mover, as the difference says. */
  lemma MoveSeenByOther(d: Dims, before: map<int64, Vec>, id: int64, p: Vec, r: int64)
    requires d.Ok() && id in before && r in before && r != id
    ensures var after := before[id := p];
            var from, to := CellOf(d, before[id]), CellOf(d, p);
            var enter, leave := Entering(d, after, from, to), Entering(d, after, to, from);
            Neighbours(d, after, r) ==
              Neighbours(d, before, r) + (if r in enter then {id} else {}) - (if r in leave then {id} else {})
  {}

  /** For everyone else, a departure takes away at most the one who left. */
  lemma LeaveSeenByOther(d: Dims, before: map<int64, Vec>, id: int64, r: int64)
    requires d.Ok() && id in before && r in before && r != id
    ensures Neighbours(d, before - {id}, r) ==
            Neighbours(d, before, r) - (if r in Neighbours(d, before, id) then {id} else {})
  {}

  /** For everyone else, an entry adds at most the newcomer, or takes away one who was there and is now out of view. */
  lemma EnterSeenByOther(d: Dims, before: map<int64, Vec>, id: int64, p: Vec, r: int64)
    requires d.Ok() && r in before && r != id
    ensures var after := before[id := p];
            Neighbours(d, after, r) ==
              Neighbours(d, before, r) - {id} + (if r in Neighbours(d, after, id) then {id} else {})
  {}

  lemma Mutual(d: Dims, pos: map<int64, Vec>, a: int64, b: int64)
    requires d.Ok() && a in pos && b in pos
    ensures a in Neighbours(d, pos, b) <==> b in Neighbours(d, pos, a)
  {}

  // ---------------------------------------------------------------------
  // Stale reports
  // ---------------------------------------------------------------------

  /** name is the player's: what the manager's object says, and so the report if it is that object. */
  ghost predicate Named(s: SceneState, id: int64, name: string) {
    id in s.shared && id in s.shown ==> s.shown[id].name == name
  }

  /** What a report should be: the player's name, and the position p it is at. */
  ghost predicate ReportIs(s: SceneState, id: int64, name: string, p: Vec) {
    id in s.shown && s.shown[id] == Info(id, name, p)
  }

  /**
   * After a move the report is the player's name and new position exactly in these cases: its entry is the
   * manager's object and stays in its cell; or the player has no name, and its entry is the manager's object,
   * or the move crosses cells, or goes to where the detached copy was taken.
   */
  lemma MoveReportIff(d: Dims, s: SceneState, id: int64, name: string, p: Vec)
    requires d.Ok() && WellFormed(d, s) && id in s.pos && id in s.shown && Named(s, id, name)
    ensures var moved, crosses := Moved(d, s, id, p), CellOf(d, s.pos[id]) != CellOf(d, p);
            && Named(moved, id, name)
            && (ReportIs(moved, id, name, p) <==>
                (id in s.shared && !crosses) || (name == "" && (id in s.shared || crosses || p == s.shown[id].pos)))
            && (moved.shown[id].pos == p <==> id in s.shared || crosses || p == s.shown[id].pos)
  {
    assert WellShown(d, s, id);
  }

  /**
   * After an entry the report is right exactly if the player was not in the scene, or its entry is the
   * manager's object, or it comes back in another cell, or has no name and comes back to where the detached
   * copy was taken. Within its cell a detached copy is kept.
   */
  lemma EntryReportIff(d: Dims, s: SceneState, id: int64, name: string, p: Vec)
    requires d.Ok() && WellFormed(d, s)
    ensures id in s.pos ==> id in s.shown
    ensures var added := Added(d, s, id, name, p);
            && Named(added, id, name)
            && (ReportIs(added, id, name, p) <==>
                id !in s.pos || id in s.shared || CellOf(d, s.pos[id]) != CellOf(d, p)
                || (name == "" && p == s.shown[id].pos))
  {
    assert WellShown(d, s, id);
  }

  /** On the shipped map: enter, step into the next cell, step on inside it; the report stays behind. */
  lemma StaleReportExample()
    ensures var d := Dims(10, 10, 100.0);
            var s0 := Added(d, EMPTY_SCENE, 7, "ann", Vec(150.0, 150.0));
            var s1 := Moved(d, s0, 7, Vec(250.0, 150.0));
            var s2 := Moved(d, s1, 7, Vec(260.0, 150.0));
            s2.pos[7] == Vec(260.0, 150.0) && s2.shown[7] == Info(7, "", Vec(250.0, 150.0))
  {
    assert 150.0 / 100.0 == 1.5 && 250.0 / 100.0 == 2.5 && 260.0 / 100.0 == 2.6;
  }

  /** And from there: coming back within the cell, as after a reconnect, mends neither name nor position. */
  lemma StaleReentryExample()
    ensures var d := Dims(10, 10, 100.0);
            var s0 := Added(d, EMPTY_SCENE, 7, "ann", Vec(150.0, 150.0));
            var s1 := Moved(d, s0, 7, Vec(250.0, 150.0));
            var s2 := Added(d, s1, 7, "ann", Vec(260.0, 150.0));
            s2.pos[7] == Vec(260.0, 150.0) && s2.shown[7] == Info(7, "", Vec(250.0, 150.0))
  {
    assert 150.0 / 100.0 == 1.5 && 250.0 / 100.0 == 2.5 && 260.0 / 100.0 == 2.6;
  }
}
