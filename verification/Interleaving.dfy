/**
 * Scene operations of different players interleaved. Manager and grid have a lock each, so an operation
 * is a sequence of steps on one or the other; at most one operation per player is under way. Each step is
 * atomic: those on the maps by their lock, and the writes of a player's own position, which are under no
 * lock, because no step of another player reads that position. This is about the index: the names and
 * positions that messages quote are read from shared objects under no lock, and are not part of it.
 */
module Interleaving {
  import opened GoTypes
  import opened Geometry

  /** An id filed in a cell of the grid. */
  datatype Entry = Entry(cell: Cell, id: int64)

  /** How far the operation of a player has come. */
  datatype Stage =
    | Idle
    | Joining(to: Vec)              // AddPlayer: the manager does not have the player
    | Joined(to: Vec)               // now it does; the grid does not
    | Rejoining(to: Vec)            // AddPlayer: the manager has the player
    | Rewritten(from: Vec, to: Vec) // its position is overwritten; the cell differs
    | Unfiled(to: Vec)              // taken out of the old cell
    | Moving(to: Vec)               // MovePlayer: the manager has the player
    | Refiled(to: Vec)              // the grid has moved it, if the cell differs
    | Leaving                       // RemovePlayer: the manager has the player
    | Gone                          // taken out of the grid

  /** The manager's positions, the grid, and the operations under way. */
  datatype State = State(d: Dims, em: map<int64, Vec>, grid: set<Entry>, stages: map<int64, Stage>) {
    function StageOf(id: int64): Stage {
      if id in stages then stages[id] else Idle
    }

    function At(id: int64, stage: Stage): State {
      this.(stages := stages[id := stage])
    }
  }

  datatype Action =
    | StartAdd(id: int64, pos: Vec)
    | StartMove(id: int64, pos: Vec)
    | StartRemove(id: int64)
    | Advance(id: int64)

  /** The grid's critical section in MoveEntity. */
  function GridMove(d: Dims, grid: set<Entry>, id: int64, from: Vec, to: Vec): set<Entry>
    requires d.Ok()
  {
    if CellOf(d, from) == CellOf(d, to) then grid
    else grid - {Entry(CellOf(d, from), id)} + {Entry(CellOf(d, to), id)}
  }

  /** The next atomic step of the operation of id. */
  function Advanced(s: State, id: int64): State
    requires s.d.Ok()
  {
    var here := id in s.em;
    match s.StageOf(id)
    case Idle => s
    case Joining(to) => s.(em := s.em[id := to]).At(id, Joined(to))
    case Joined(to) => s.(grid := s.grid + {Entry(CellOf(s.d, to), id)}).At(id, Idle)
    case Rejoining(to) =>
      if !here then s
      else
        var same := CellOf(s.d, s.em[id]) == CellOf(s.d, to);
        s.(em := s.em[id := to]).At(id, if same then Idle else Rewritten(s.em[id], to))
    case Rewritten(from, to) => s.(grid := s.grid - {Entry(CellOf(s.d, from), id)}).At(id, Unfiled(to))
    case Unfiled(to) => s.(grid := s.grid + {Entry(CellOf(s.d, to), id)}).At(id, Idle)
    case Moving(to) => if !here then s else s.(grid := GridMove(s.d, s.grid, id, s.em[id], to)).At(id, Refiled(to))
    case Refiled(to) => s.(em := s.em[id := to]).At(id, Idle)
    case Leaving => if !here then s else s.(grid := s.grid - {Entry(CellOf(s.d, s.em[id]), id)}).At(id, Gone)
    case Gone => s.(em := s.em - {id}).At(id, Idle)
  }

  /** One atomic step: an idle player's operation starts with a look-up in the manager, or one under way goes on. */
  ghost predicate Step(s: State, a: Action, s': State)
    requires s.d.Ok()
  {
    match a
    case StartAdd(id, p) => s.StageOf(id) == Idle && s' == s.At(id, if id in s.em then Rejoining(p) else Joining(p))
    case StartMove(id, p) => s.StageOf(id) == Idle && s' == (if id in s.em then s.At(id, Moving(p)) else s)
    case StartRemove(id) => s.StageOf(id) == Idle && s' == (if id in s.em then s.At(id, Leaving) else s)
    case Advance(id) => s.StageOf(id) != Idle && s' == Advanced(s, id)
  }

  ghost predicate Nowhere(s: State, id: int64) {
    forall c: Cell :: Entry(c, id) !in s.grid
  }

  ghost predicate OnlyIn(s: State, id: int64, c: Cell) {
    forall b: Cell :: Entry(b, id) in s.grid <==> b == c
  }

  /** What holds of one player, by how far its operation has come. */
  ghost predicate Steady(s: State, id: int64)
    requires s.d.Ok()
  {
    match s.StageOf(id)
    case Idle => if id in s.em then OnlyIn(s, id, CellOf(s.d, s.em[id])) else Nowhere(s, id)
    case Joining(_) => id !in s.em && Nowhere(s, id)
    case Joined(to) => id in s.em && s.em[id] == to && Nowhere(s, id)
    case Rejoining(_) => id in s.em && OnlyIn(s, id, CellOf(s.d, s.em[id]))
    case Rewritten(from, to) => id in s.em && s.em[id] == to && OnlyIn(s, id, CellOf(s.d, from))
    case Unfiled(to) => id in s.em && s.em[id] == to && Nowhere(s, id)
    case Moving(_) => id in s.em && OnlyIn(s, id, CellOf(s.d, s.em[id]))
    case Refiled(to) => id in s.em && OnlyIn(s, id, CellOf(s.d, to))
    case Leaving => id in s.em && OnlyIn(s, id, CellOf(s.d, s.em[id]))
    case Gone => id in s.em && Nowhere(s, id)
  }

  ghost predicate AllSteady(s: State) {
    s.d.Ok() && forall id: int64 :: Steady(s, id)
  }

  /** A step of one player leaves every other player alone. */
  lemma OthersUntouched(s: State, a: Action, s': State, o: int64)
    requires AllSteady(s) && Step(s, a, s') && o != a.id
    ensures s'.d == s.d && Steady(s', o)
  {
    assert Steady(s, o);
    assert (o in s'.em <==> o in s.em) && (o in s.em ==> s'.em[o] == s.em[o]);
    assert s'.StageOf(o) == s.StageOf(o);
    assert forall c: Cell :: Entry(c, o) in s'.grid <==> Entry(c, o) in s.grid;
  }

  lemma OwnStep(s: State, a: Action, s': State)
    requires AllSteady(s) && Step(s, a, s')
    ensures s'.d == s.d && Steady(s', a.id)
  {
    assert Steady(s, a.id);
  }

  lemma StepSteady(s: State, a: Action, s': State)
    requires AllSteady(s) && Step(s, a, s')
    ensures AllSteady(s')
  {
    OwnStep(s, a, s');
    forall id: int64 ensures Steady(s', id) {
      if id != a.id { OthersUntouched(s, a, s', id); }
    }
  }

  /** Where the operation under way is to take the player; nowhere if it is to leave. */
  function Goal(stage: Stage): Option<Vec> {
    match stage
    case Idle => None
    case Joining(to) => Some(to)
    case Joined(to) => Some(to)
    case Rejoining(to) => Some(to)
    case Rewritten(_, to) => Some(to)
    case Unfiled(to) => Some(to)
    case Moving(to) => Some(to)
    case Refiled(to) => Some(to)
    case Leaving => None
    case Gone => None
  }

  function StepsLeft(stage: Stage): nat {
    match stage
    case Idle => 0
    case Joining(_) => 2
    case Joined(_) => 1
    case Rejoining(_) => 3
    case Rewritten(_, _) => 2
    case Unfiled(_) => 1
    case Moving(_) => 2
    case Refiled(_) => 1
    case Leaving => 2
    case Gone => 1
  }

  /** An operation starts with its goal, unless it is one on a player that is not there. */
  lemma StartsWithGoal(s: State, a: Action, s': State)
    requires AllSteady(s) && Step(s, a, s') && !a.Advance?
    ensures s'.em == s.em && s'.grid == s.grid
    ensures match a
            case StartAdd(id, p) => s'.StageOf(id) != Idle && Goal(s'.StageOf(id)) == Some(p)
            case StartMove(id, p) => if id in s.em then s'.StageOf(id) == Moving(p) else s' == s
            case StartRemove(id) => if id in s.em then s'.StageOf(id) == Leaving else s' == s
            case Advance(_) => true
  {}

  /**
   * Whatever the others do in between, each step of an operation leads to its end, and there the manager has the
   * player at the goal, or not at all if it was to leave.
   */
  lemma OperationArrives(s: State, id: int64, s': State)
    requires AllSteady(s) && Step(s, Advance(id), s')
    ensures StepsLeft(s'.StageOf(id)) < StepsLeft(s.StageOf(id))
    ensures s'.StageOf(id) != Idle ==> Goal(s'.StageOf(id)) == Goal(s.StageOf(id))
    ensures s'.StageOf(id) == Idle ==> Find(s'.em, id) == Goal(s.StageOf(id))
  {
    assert Steady(s, id);
  }

  ghost predicate Run(states: seq<State>, actions: seq<Action>) {
    && |states| == |actions| + 1
    && (forall i | 0 <= i < |states| :: states[i].d.Ok())
    && states[0].em == map[] && states[0].grid == {} && states[0].stages == map[]
    && forall i | 0 <= i < |actions| :: Step(states[i], actions[i], states[i + 1])
  }

  lemma {:induction false} RunSteady(states: seq<State>, actions: seq<Action>, n: nat)
    requires Run(states, actions) && n < |states|
    ensures AllSteady(states[n])
  {
    if n > 0 {
      RunSteady(states, actions, n - 1);
      StepSteady(states[n - 1], actions[n - 1], states[n]);
    } else {
      forall id: int64 ensures Steady(states[0], id) {}
    }
  }

  /**
   * Safety of every interleaving: at all times an id is in at most one cell, whoever the grid shows the
   * manager has, and a player with no operation under way is in exactly the cell of its position.
   */
  lemma InterleavingIsSafe(states: seq<State>, actions: seq<Action>, n: nat, id: int64)
    requires Run(states, actions) && n < |states|
    ensures var s := states[n];
            && (forall b, c: Cell :: Entry(b, id) in s.grid && Entry(c, id) in s.grid ==> b == c)
            && (forall c: Cell :: Entry(c, id) in s.grid ==> id in s.em)
            && (s.StageOf(id) == Idle ==>
                  forall c: Cell :: Entry(c, id) in s.grid <==> id in s.em && c == CellOf(s.d, s.em[id]))
  {
    RunSteady(states, actions, n);
    assert Steady(states[n], id);
  }

  /**
   * Why one operation per player: two moves of the same player that both looked up the old position file
   * it twice exactly when they leave the old cell for two different ones.
   */
  lemma TwoMovesOfOne(d: Dims, id: int64, from: Vec, p: Vec, q: Vec)
    requires d.Ok()
    ensures var once := GridMove(d, {Entry(CellOf(d, from), id)}, id, from, p);
            var twice := GridMove(d, once, id, from, q);
            (exists b, c: Cell :: b != c && Entry(b, id) in twice && Entry(c, id) in twice) <==>
              CellOf(d, p) != CellOf(d, from) && CellOf(d, q) != CellOf(d, from) && CellOf(d, p) != CellOf(d, q)
  {
    var once := GridMove(d, {Entry(CellOf(d, from), id)}, id, from, p);
    var twice := GridMove(d, once, id, from, q);
    assert CellOf(d, p) != CellOf(d, from) && CellOf(d, q) != CellOf(d, from) ==>
             Entry(CellOf(d, p), id) in twice && Entry(CellOf(d, q), id) in twice;
  }
}
