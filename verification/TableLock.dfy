/**
 * The table of connections under its reader/writer lock: who reads, who waits to write, and how far a sweep is.
 * What the lobby's steps say about a table that is locked for good follows from the rules of the lock.
 */
module TableLock {
  import opened GoTypes
  import opened LobbyModel
  import L = LobbyRuns
  import opened LobbyBatches

  /** What a thread wants to do to the table. */
  datatype Change = Add(conn: int64) | Remove(conn: int64)

  datatype Who = Sweeper | Other(thread: int64)

  /** The sweep holds the read lock from its start to its end, also while it closes a connection. */
  datatype Sweep = Resting | Ranging(left: seq<int64>) | Closing(conn: int64, left: seq<int64>)

  /**
   * readers are the other threads that hold the read lock, and tasks is what threads want the write lock for.
   * writer is the one whose turn it is: it has announced itself, lets no new reader in, and writes when the last
   * one has gone.
   */
  datatype Table = Table(lobby: State, readers: set<int64>, writer: Option<Who>, tasks: map<int64, Change>,
                         sweep: Sweep)
  {
    predicate Read() {
      readers != {} || sweep != Resting
    }
  }

  /** Handle is a step of a handler other than putting a connection into the table or taking one out. */
  datatype Act =
    | Handle(ev: Event)
    | StartLook(thread: int64)
    | EndLook(thread: int64)
    | Ask(thread: int64, change: Change)
    | Announce(who: Who)
    | Write(who: Who)
    | StartSweep(order: seq<int64>)
    | Visit(overdue: bool)
    | EndSweep

  function Changed(s: State, change: Change): State {
    match change
    case Add(c) => s.(conns := s.conns[c := Conn(Init, None, 0, None)])
    case Remove(c) => s.(conns := s.conns - {c})
  }

  /** Whether who waits for the write lock. */
  predicate Wants(t: Table, who: Who) {
    match who
    case Sweeper => t.sweep.Closing?
    case Other(thread) => thread in t.tasks
  }

  ghost predicate Step(t: Table, a: Act, t': Table) {
    match a
    case Handle(ev) =>
      && !ev.Connect? && !ev.Disconnect? && !ev.Timeout? && Fair(t.lobby, ev)
      && t' == t.(lobby := Next(t.lobby, ev))
    case StartLook(thread) => t.writer == None && t' == t.(readers := t.readers + {thread})
    case EndLook(thread) => t' == t.(readers := t.readers - {thread})
    case Ask(thread, change) => thread !in t.tasks && t' == t.(tasks := t.tasks[thread := change])
    case Announce(who) => t.writer == None && Wants(t, who) && t' == t.(writer := Some(who))
    case Write(who) => t.writer == Some(who) && !t.Read() && Wants(t, who) && WriteWith(t, who, t')
    case StartSweep(order) =>
      && t.sweep == Resting && t.writer == None && Lists(order, t.lobby.conns.Keys)
      && t' == t.(sweep := Ranging(order))
    case Visit(overdue) => t.sweep.Ranging? && t.sweep.left != [] && VisitWith(t, overdue, t')
    case EndSweep => t.sweep == Ranging([]) && t' == t.(sweep := Resting)
  }

  /** The ids of new connections are fresh. If the sweep ever had its turn it would go on. */
  ghost predicate WriteWith(t: Table, who: Who, t': Table)
    requires Wants(t, who)
  {
    match who
    case Sweeper =>
      t' == t.(lobby := t.lobby.(conns := t.lobby.conns - {t.sweep.conn}, locked := false), writer := None,
               sweep := Ranging(t.sweep.left))
    case Other(thread) =>
      && (t.tasks[thread].Add? ==> t.tasks[thread].conn !in t.lobby.conns)
      && t' == t.(lobby := Changed(t.lobby, t.tasks[thread]), writer := None, tasks := t.tasks - {thread})
  }

  /** A connection that is in use and overdue is cleaned up, and then taken out of the table; others are passed. */
  ghost predicate VisitWith(t: Table, overdue: bool, t': Table)
    requires t.sweep.Ranging? && t.sweep.left != []
  {
    var c, left := t.sweep.left[0], t.sweep.left[1..];
    if overdue && Due(t.lobby, c) then t' == t.(lobby := TimedOut(t.lobby, c), sweep := Closing(c, left))
    else t' == t.(sweep := Ranging(left))
  }

  /** The event of the lobby that a step is, if it is one. */
  function Shown(t: Table, a: Act): Option<Event> {
    match a
    case Handle(ev) => Some(ev)
    case Write(who) =>
      if who.Other? && who.thread in t.tasks then
        match t.tasks[who.thread]
        case Add(c) => Some(Connect(c))
        case Remove(c) => Some(Disconnect(c))
      else None
    case Visit(overdue) =>
      if overdue && t.sweep.Ranging? && t.sweep.left != [] && Due(t.lobby, t.sweep.left[0])
      then Some(Timeout(t.sweep.left[0])) else None
    case _ => None
  }

  /** The lobby's flag is that the sweep waits to write; who has the turn to write wants to. */
  ghost predicate Kept(t: Table) {
    && (t.lobby.locked <==> t.sweep.Closing?)
    && (t.writer.Some? ==> Wants(t, t.writer.value))
  }

  /** Seen from the lobby, the step is the event that it shows, or nothing. */
  ghost predicate Shows(t: Table, a: Act, t': Table) {
    match Shown(t, a)
    case Some(ev) => Fair(t.lobby, ev) && t'.lobby == Next(t.lobby, ev)
    case None => t'.lobby == t.lobby
  }

  lemma WriteShown(t: Table, who: Who, t': Table)
    requires Kept(t) && Step(t, Write(who), t')
    ensures Kept(t') && who != Sweeper && Shows(t, Write(who), t')
  {
    hide Next, Fair;
    if who.Other? {
      ChangeIsStep(t.lobby, t.tasks[who.thread]);
    }
  }

  /** Into a table that is not locked, connections come and go as in the lobby's steps. */
  lemma ChangeIsStep(s: State, change: Change)
    requires !s.locked && (change.Add? ==> change.conn !in s.conns)
    ensures match change
            case Add(c) => Fair(s, Connect(c)) && Next(s, Connect(c)) == Changed(s, change)
            case Remove(c) => Fair(s, Disconnect(c)) && Next(s, Disconnect(c)) == Changed(s, change)
  {}

  lemma VisitShown(t: Table, overdue: bool, t': Table)
    requires Kept(t) && Step(t, Visit(overdue), t')
    ensures Kept(t') && Shows(t, Visit(overdue), t')
  {
    hide SavedRoles, SceneLeave;
  }

  /**
   * Every step under the lock is a step of the lobby, or none of its business. In particular nothing is put
   * into a table that is locked, nothing is taken out of it, and nobody times out in it, because nobody gets the lock.
   */
  lemma StepShown(t: Table, a: Act, t': Table)
    requires Kept(t) && Step(t, a, t')
    ensures Kept(t') && a != Write(Sweeper) && Shows(t, a, t')
  {
    hide Next, Fair, WriteWith, VisitWith;
    match a
    case Handle(ev) => L.KeepsTable(t.lobby, ev);
    case Write(who) => WriteShown(t, who, t');
    case Visit(overdue) => VisitShown(t, overdue, t');
    case _ =>
  }

  // ---------------------------------------------------------------------
  // Runs
  // ---------------------------------------------------------------------

  ghost predicate Initial(t: Table) {
    L.Initial(t.lobby) && t == Table(t.lobby, {}, None, map[], Resting)
  }

  /** Steps from any point on. */
  ghost predicate Path(ts: seq<Table>, acts: seq<Act>) {
    |ts| == |acts| + 1 && forall i | 0 <= i < |acts| :: Step(ts[i], acts[i], ts[i + 1])
  }

  ghost predicate Run(ts: seq<Table>, acts: seq<Act>) {
    Path(ts, acts) && Initial(ts[0])
  }

  /** Every run under the lock is, seen from outside, a run of the lobby. */
  lemma {:induction false} RunShown(ts: seq<Table>, acts: seq<Act>, n: nat)
    returns (states: seq<State>, evs: seq<Event>)
    requires Run(ts, acts) && n < |ts|
    ensures L.Run(states, evs) && states[|evs|] == ts[n].lobby && Kept(ts[n])
  {
    hide Step, Next, Fair;
    if n == 0 {
      states, evs := [ts[0].lobby], [];
    } else {
      states, evs := RunShown(ts, acts, n - 1);
      StepShown(ts[n - 1], acts[n - 1], ts[n]);
      if Shown(ts[n - 1], acts[n - 1]).Some? {
        states, evs := states + [ts[n].lobby], evs + [Shown(ts[n - 1], acts[n - 1]).value];
      }
    }
  }

  /** Nobody has got any further: the sweep, those who wait to write, and those who would like to read. */
  ghost predicate Stuck(t: Table, t': Table) {
    && t'.sweep == t.sweep && t'.lobby.locked && t'.lobby.conns.Keys == t.lobby.conns.Keys
    && (forall thread | thread in t.tasks :: thread in t'.tasks && t'.tasks[thread] == t.tasks[thread])
    && (t.writer.Some? ==> t'.writer == t.writer && t'.readers <= t.readers)
  }

  lemma StepSticks(t: Table, a: Act, t': Table)
    requires Kept(t) && t.sweep.Closing? && Step(t, a, t')
    ensures Kept(t') && Stuck(t, t')
  {
    StepShown(t, a, t');
    if a.Handle? {
      L.KeepsTable(t.lobby, a.ev);
    }
    hide Next, Fair;
  }

  /**
   * Once a sweep waits to take a connection out of the table it waits for good. The table stays as it is, whoever
   * waits to write goes on waiting, and from when one of them has announced itself no one new gets to read.
   */
  lemma {:induction false} ClosingIsForGood(ts: seq<Table>, acts: seq<Act>, i: nat, n: nat)
    requires Path(ts, acts) && i <= n < |ts| && Kept(ts[i]) && ts[i].sweep.Closing?
    ensures Kept(ts[n]) && Stuck(ts[i], ts[n])
  {
    hide Step;
    if i == n {
    } else {
      ClosingIsForGood(ts, acts, i, n - 1);
      StepSticks(ts[n - 1], acts[n - 1], ts[n]);
    }
  }

  /** So in a run one connection times out at most, and after it none comes or goes. */
  lemma OneTimeout(ts: seq<Table>, acts: seq<Act>, i: nat, j: nat)
    requires Run(ts, acts) && i < j < |acts| && Shown(ts[i], acts[i]).Some? && Shown(ts[i], acts[i]).value.Timeout?
    ensures match Shown(ts[j], acts[j])
            case Some(ev) => !ev.Timeout? && !ev.Connect? && !ev.Disconnect?
            case None => true
  {
    var states, evs := RunShown(ts, acts, i + 1);
    assert Step(ts[i], acts[i], ts[i + 1]) && Step(ts[j], acts[j], ts[j + 1]);
    hide Next, Fair, Kept, Initial, TimedOut;
    assert ts[i + 1].sweep.Closing?;
    ClosingIsForGood(ts, acts, i + 1, j);
    assert ts[j].sweep.Closing?;
  }

  // ---------------------------------------------------------------------
  // The sweep
  // ---------------------------------------------------------------------

  /** Those of order that are late and in use. */
  function Overdue(s: State, order: seq<int64>, late: set<int64>): seq<int64> {
    if order == [] then []
    else (if order[0] in late && Due(s, order[0]) then [order[0]] else []) + Overdue(s, order[1..], late)
  }

  /** The sweep has a connection to visit. */
  predicate AtVisit(t: Table) {
    t.sweep.Ranging? && t.sweep.left != []
  }

  /**
   * A sweep that has gone as far as it can, whatever other threads did about the lock meanwhile, has come to what
   * the lobby's step says: it got through if nobody was overdue, and otherwise is stuck with the first who was.
   */
  lemma {:induction false} SweepGoes(ts: seq<Table>, acts: seq<Act>, late: set<int64>)
    requires Path(ts, acts) && Kept(ts[0]) && ts[0].sweep.Ranging? && !AtVisit(ts[|acts|])
    requires forall i | 0 <= i < |acts| :: !acts[i].Handle? && acts[i] != EndSweep
    requires forall i | 0 <= i < |acts| && acts[i].Visit? && AtVisit(ts[i]) ::
      acts[i].overdue <==> ts[i].sweep.left[0] in late
    ensures var overdue := Overdue(ts[0].lobby, ts[0].sweep.left, late);
            && ts[|acts|].lobby == SweptInOrder(ts[0].lobby, overdue)
            && (overdue == [] <==> ts[|acts|].sweep == Ranging([]))
            && (overdue != [] ==> ts[|acts|].sweep.Closing? && ts[|acts|].sweep.conn == overdue[0])
  {
    if acts == [] {
    } else {
      assert Step(ts[0], acts[0], ts[1]);
      StepShown(ts[0], acts[0], ts[1]);
      hide Next, Fair, TimedOut;
      if ts[1].sweep.Closing? {
        ClosedStays(ts, acts);
      } else {
        assert forall i | 0 <= i < |acts| - 1 :: Step(ts[1..][i], acts[1..][i], ts[1..][i + 1]);
        SweepGoes(ts[1..], acts[1..], late);
      }
    }
  }

  /** After the visit that is the first step, lobby and sweep stay as they are. */
  lemma {:induction false} ClosedStays(ts: seq<Table>, acts: seq<Act>)
    requires Path(ts, acts) && acts != [] && Kept(ts[1]) && ts[1].sweep.Closing?
    requires forall i | 0 <= i < |acts| :: !acts[i].Handle?
    ensures ts[|acts|].lobby == ts[1].lobby && ts[|acts|].sweep == ts[1].sweep
  {
    hide Fair, Next, TimedOut;
    if |acts| == 1 {
    } else {
      var n := |acts| - 1;
      assert acts[..n][0] == acts[0] && ts[..n + 1][1] == ts[1];
      ClosedStays(ts[..n + 1], acts[..n]);
      ClosingIsForGood(ts, acts, 1, n);
      assert Step(ts[n], acts[n], ts[n + 1]);
    }
  }
}
