/**
 * The scene service as a value: its scenes, its tables of connections, and everything it has sent; the
 * steps it takes; and what clients see by replaying what they were sent.
 */
module AoiWorld {
  import opened GoTypes
  import opened Geometry
  import opened Grid
  import opened SceneModel
  import opened MoveLimit

  // ---------------------------------------------------------------------
  // Messages and their replay
  // ---------------------------------------------------------------------

  datatype Msg =
    | AOIEnter(players: seq<Info>)
    | AOILeave(roleIds: seq<int64>)
    | MoveBroadcast(roleId: int64, pos: Vec, sequence: int)

  /** A message handed to a connection, with the sequence number of its packet header. */
  datatype Delivery = Delivery(conn: int64, header: uint32, msg: Msg)

  /** All deliveries so far, and how often the sequence counter was advanced. */
  datatype Net = Net(log: seq<Delivery>, ticks: nat)

  /** The value of the 32-bit counter after n advances. */
  function Counter(n: nat): uint32 {
    n % 0x1_0000_0000
  }

  /** Conversion of the counter to a signed 32-bit field. */
  function ToInt32(n: uint32): int {
    if n < 0x8000_0000 then n else n - 0x1_0000_0000
  }

  ghost function InfoIds(ps: seq<Info>): set<int64> {
    set i | 0 <= i < |ps| :: ps[i].id
  }

  ghost function Apply(view: set<int64>, msg: Msg): set<int64> {
    match msg
    case AOIEnter(ps) => view + InfoIds(ps)
    case AOILeave(ids) => view - Elements(ids)
    case MoveBroadcast(_, _, _) => view
  }

  /** The players a client holds in view after the deliveries to its connection, starting from none. */
  ghost function Replay(log: seq<Delivery>, conn: int64): set<int64> {
    if log == [] then {}
    else
      var last := log[|log| - 1];
      var view := Replay(log[..|log| - 1], conn);
      if last.conn == conn then Apply(view, last.msg) else view
  }

  lemma ReplaySnoc(log: seq<Delivery>, d: Delivery, conn: int64)
    ensures Replay(log + [d], conn) ==
            if d.conn == conn then Apply(Replay(log, conn), d.msg) else Replay(log, conn)
  {
    assert (log + [d])[..|log|] == log;
  }

  // ---------------------------------------------------------------------
  // Sending
  // ---------------------------------------------------------------------

  /** Sends with the next sequence number, if there is a connection. */
  function Send(net: Net, conn: Option<int64>, msg: Msg): Net {
    if conn.None? then net
    else Net(net.log + [Delivery(conn.value, Counter(net.ticks + 1), msg)], net.ticks + 1)
  }

  /** Sends with sequence number 0, if there is a connection. */
  function Post(net: Net, conn: Option<int64>, msg: Msg): Net {
    if conn.None? then net else net.(log := net.log + [Delivery(conn.value, 0, msg)])
  }

  /** Sends the same message to each of ids, in order. */
  function Tell(net: Net, conns: map<int64, int64>, ids: seq<int64>, msg: Msg): Net {
    if ids == [] then net
    else Send(Tell(net, conns, ids[..|ids| - 1], msg), Find(conns, ids[|ids| - 1]), msg)
  }

  /** What the players of ids are reported as. */
  function Infos(s: SceneState, ids: seq<int64>): seq<Info>
    requires forall i | 0 <= i < |ids| :: ids[i] in s.shown
  {
    seq(|ids|, i requires 0 <= i < |ids| => s.shown[ids[i]])
  }

  /** The messages of an entry: the list of those around to the newcomer, the newcomer to each of them. */
  function Greet(net: Net, conns: map<int64, int64>, s: SceneState, others: seq<int64>, me: Info): Net
    requires forall i | 0 <= i < |others| :: others[i] in s.shown
  {
    var told := if |others| > 0 then Send(net, Find(conns, me.id), AOIEnter(Infos(s, others))) else net;
    Tell(told, conns, others, AOIEnter([me]))
  }

  /** Introduces the mover and each of enters to each other. */
  function Meet(net: Net, conns: map<int64, int64>, s: SceneState, enters: seq<int64>, me: Info): Net
    requires forall i | 0 <= i < |enters| :: enters[i] in s.shown
  {
    if enters == [] then net
    else
      var o := enters[|enters| - 1];
      var met := Meet(net, conns, s, enters[..|enters| - 1], me);
      Send(Send(met, Find(conns, o), AOIEnter([me])), Find(conns, me.id), AOIEnter([s.shown[o]]))
  }

  /** Takes the mover and each of leaves out of each other's view. */
  function Part(net: Net, conns: map<int64, int64>, leaves: seq<int64>, id: int64): Net {
    if leaves == [] then net
    else
      var o := leaves[|leaves| - 1];
      var parted := Part(net, conns, leaves[..|leaves| - 1], id);
      Send(Send(parted, Find(conns, o), AOILeave([id])), Find(conns, id), AOILeave([o]))
  }

  function Shout(net: Net, conns: map<int64, int64>, ids: seq<int64>, msg: Msg): Net {
    if ids == [] then net
    else Post(Shout(net, conns, ids[..|ids| - 1], msg), Find(conns, ids[|ids| - 1]), msg)
  }

  /** The broadcast of a move: one sequence number for all who see the mover. */
  function Broadcast(net: Net, conns: map<int64, int64>, ids: seq<int64>, id: int64, p: Vec): Net {
    Shout(net.(ticks := net.ticks + 1), conns, ids, MoveBroadcast(id, p, ToInt32(Counter(net.ticks + 1))))
  }

  // ---------------------------------------------------------------------
  // What each kind of sending does to every client's view
  // ---------------------------------------------------------------------

  ghost function If(b: bool, s: set<int64>): set<int64> {
    if b then s else {}
  }

  /** Whether one of ids is reached through conn. */
  ghost predicate Reaches(conns: map<int64, int64>, ids: seq<int64>, conn: int64) {
    exists i :: 0 <= i < |ids| && Find(conns, ids[i]) == Some(conn)
  }

  lemma NobodyReached(conns: map<int64, int64>, conn: int64)
    ensures !Reaches(conns, [], conn)
  {}

  lemma ReachesSnoc(conns: map<int64, int64>, ids: seq<int64>, conn: int64)
    requires ids != []
    ensures Reaches(conns, ids, conn) <==>
            Reaches(conns, ids[..|ids| - 1], conn) || Find(conns, ids[|ids| - 1]) == Some(conn)
  {
    var init := ids[..|ids| - 1];
    if Reaches(conns, ids, conn) {
      var i :| 0 <= i < |ids| && Find(conns, ids[i]) == Some(conn);
      if i < |init| { assert init[i] == ids[i]; }
    }
    if Reaches(conns, init, conn) {
      var i :| 0 <= i < |init| && Find(conns, init[i]) == Some(conn);
      assert ids[i] == init[i];
    }
  }

  lemma SendView(net: Net, to: Option<int64>, msg: Msg, conn: int64)
    ensures Replay(Send(net, to, msg).log, conn) ==
            if to == Some(conn) then Apply(Replay(net.log, conn), msg) else Replay(net.log, conn)
  {
    if to.Some? {
      ReplaySnoc(net.log, Delivery(to.value, Counter(net.ticks + 1), msg), conn);
    }
  }

  lemma {:induction false} TellView(net: Net, conns: map<int64, int64>, ids: seq<int64>, msg: Msg, conn: int64)
    requires !msg.MoveBroadcast?
    ensures Replay(Tell(net, conns, ids, msg).log, conn) ==
            if Reaches(conns, ids, conn) then Apply(Replay(net.log, conn), msg) else Replay(net.log, conn)
  {
    if ids == [] {
    } else {
      var init := ids[..|ids| - 1];
      TellView(net, conns, init, msg, conn);
      SendView(Tell(net, conns, init, msg), Find(conns, ids[|ids| - 1]), msg, conn);
      ReachesSnoc(conns, ids, conn);
    }
  }

  lemma {:induction false} ShoutView(net: Net, conns: map<int64, int64>, ids: seq<int64>, msg: Msg, conn: int64)
    requires msg.MoveBroadcast?
    ensures Replay(Shout(net, conns, ids, msg).log, conn) == Replay(net.log, conn)
  {
    if ids == [] {
    } else {
      var init, to := ids[..|ids| - 1], Find(conns, ids[|ids| - 1]);
      ShoutView(net, conns, init, msg, conn);
      if to.Some? {
        ReplaySnoc(Shout(net, conns, init, msg).log, Delivery(to.value, 0, msg), conn);
      }
    }
  }

  lemma OneInfo(p: Info)
    ensures InfoIds([p]) == {p.id}
  {
    assert [p][0] == p;
  }

  lemma MeetOneView(met: Net, conns: map<int64, int64>, o: Info, me: Info, conn: int64)
    ensures var once := Send(met, Find(conns, o.id), AOIEnter([me]));
            Replay(Send(once, Find(conns, me.id), AOIEnter([o])).log, conn) == Replay(met.log, conn)
              + If(Find(conns, o.id) == Some(conn), {me.id}) + If(Find(conns, me.id) == Some(conn), {o.id})
  {
    hide Send, Find, InfoIds, Replay;
    var once := Send(met, Find(conns, o.id), AOIEnter([me]));
    SendView(met, Find(conns, o.id), AOIEnter([me]), conn);
    SendView(once, Find(conns, me.id), AOIEnter([o]), conn);
    OneInfo(me);
    OneInfo(o);
  }

  lemma {:induction false} MeetView(net: Net, conns: map<int64, int64>, s: SceneState, enters: seq<int64>, me: Info,
                                      conn: int64)
    requires forall i | 0 <= i < |enters| :: enters[i] in s.shown && s.shown[enters[i]].id == enters[i]
    ensures Replay(Meet(net, conns, s, enters, me).log, conn) == Replay(net.log, conn)
              + If(Reaches(conns, enters, conn), {me.id})
              + If(Find(conns, me.id) == Some(conn), Elements(enters))
  {
    hide Send, Find, Replay, Reaches;
    if enters == [] {
      NobodyReached(conns, conn);
    } else {
      var init, o := enters[..|enters| - 1], enters[|enters| - 1];
      MeetView(net, conns, s, init, me, conn);
      MeetOneView(Meet(net, conns, s, init, me), conns, s.shown[o], me, conn);
      ReachesSnoc(conns, enters, conn);
      ElementsOfPrefix(enters, |enters| - 1);
      assert enters[..|enters|] == enters;
    }
  }

  lemma PartOneView(parted: Net, conns: map<int64, int64>, o: int64, id: int64, conn: int64)
    ensures var once := Send(parted, Find(conns, o), AOILeave([id]));
            Replay(Send(once, Find(conns, id), AOILeave([o])).log, conn) == Replay(parted.log, conn)
              - If(Find(conns, o) == Some(conn), {id}) - If(Find(conns, id) == Some(conn), {o})
  {
    hide Send, Find, Replay;
    var once := Send(parted, Find(conns, o), AOILeave([id]));
    SendView(parted, Find(conns, o), AOILeave([id]), conn);
    SendView(once, Find(conns, id), AOILeave([o]), conn);
    assert Elements([id]) == {id} && Elements([o]) == {o};
  }

  lemma {:induction false} PartView(net: Net, conns: map<int64, int64>, leaves: seq<int64>, id: int64, conn: int64)
    ensures Replay(Part(net, conns, leaves, id).log, conn) == Replay(net.log, conn)
              - If(Reaches(conns, leaves, conn), {id}) - If(Find(conns, id) == Some(conn), Elements(leaves))
  {
    hide Send, Find, Replay, Reaches;
    if leaves == [] {
      NobodyReached(conns, conn);
    } else {
      var init, o := leaves[..|leaves| - 1], leaves[|leaves| - 1];
      PartView(net, conns, init, id, conn);
      PartOneView(Part(net, conns, init, id), conns, o, id, conn);
      ReachesSnoc(conns, leaves, conn);
      ElementsOfPrefix(leaves, |leaves| - 1);
      assert leaves[..|leaves|] == leaves;
    }
  }

  lemma GreetView(net: Net, conns: map<int64, int64>, s: SceneState, others: seq<int64>, me: Info, conn: int64)
    requires forall i | 0 <= i < |others| :: others[i] in s.shown && s.shown[others[i]].id == others[i]
    ensures Replay(Greet(net, conns, s, others, me).log, conn) == Replay(net.log, conn)
              + If(Reaches(conns, others, conn), {me.id})
              + If(Find(conns, me.id) == Some(conn), Elements(others))
  {
    var told := if |others| > 0 then Send(net, Find(conns, me.id), AOIEnter(Infos(s, others))) else net;
    SendView(net, Find(conns, me.id), AOIEnter(Infos(s, others)), conn);
    TellView(told, conns, others, AOIEnter([me]), conn);
    OneInfo(me);
    var infos := Infos(s, others);
    assert InfoIds(infos) == Elements(others) by {
      forall i | 0 <= i < |others| ensures others[i] in InfoIds(infos) { assert infos[i].id == others[i]; }
    }
  }

  // ---------------------------------------------------------------------
  // The service and its steps
  // ---------------------------------------------------------------------

  /** A position handed to the position cache. */
  datatype Saved = Saved(role: int64, pos: Vec, mapId: int64)

  /**
   * roleConns is the service's own table of connections, lobby what the lobby finds for a role.
   * Entering and leaving use the lobby's table; moving prefers the service's own.
   */
  datatype World = World(
    dims: Dims, interval: int, scenes: map<int64, SceneState>, lastMove: map<int64, int>,
    roleConns: map<int64, int64>, lobby: map<int64, int64>, net: Net, saved: seq<Saved>)
  {
    function MoveConns(): map<int64, int64> {
      lobby + roleConns
    }

    ghost predicate Holds(m: int64, role: int64) {
      m in scenes && role in scenes[m].pos
    }

    function SceneOf(m: int64): SceneState {
      if m in scenes then scenes[m] else EMPTY_SCENE
    }

    /** The lobby knows a connection for the role. */
    ghost predicate Live(role: int64) {
      role in lobby
    }

    ghost function View(role: int64): set<int64>
      requires role in lobby
    {
      Replay(net.log, lobby[role]) - {role}
    }
  }

  ghost predicate EnterWith(w: World, role: int64, m: int64, name: string, p: Vec, others: seq<int64>, w': World)
    requires w.dims.Ok()
  {
    var s := Added(w.dims, w.SceneOf(m), role, name, p);
    && Lists(others, Neighbours(w.dims, s.pos, role))
    && (forall i | 0 <= i < |others| :: others[i] in s.shown)
    && w' == w.(scenes := w.scenes[m := s],
                net := Greet(w.net, w.lobby, s, others, Info(role, name, p)),
                roleConns := if role in w.lobby then w.roleConns[role := w.lobby[role]] else w.roleConns)
  }

  ghost predicate LeaveWith(w: World, role: int64, m: int64, others: seq<int64>, w': World)
    requires w.dims.Ok() && m in w.scenes
  {
    var s, here := w.scenes[m], role in w.scenes[m].pos;
    && Lists(others, if here then Neighbours(w.dims, s.pos, role) else {})
    && w' == w.(scenes := w.scenes[m := if here then Removed(s, role) else s],
                net := Tell(w.net, w.lobby, others, AOILeave([role])),
                lastMove := w.lastMove - {role},
                roleConns := w.roleConns - {role})
  }

  /** The lists a move works through: who enters, who leaves, and who hears of it. */
  datatype Lists3 = Lists3(enters: seq<int64>, leaves: seq<int64>, visible: seq<int64>)

  ghost predicate MoveWith(w: World, role: int64, m: int64, p: Vec, now: int, l: Lists3, w': World)
    requires w.dims.Ok() && w.Holds(m, role) && role in w.scenes[m].shown
  {
    var s, from, to := Moved(w.dims, w.scenes[m], role, p), CellOf(w.dims, w.scenes[m].pos[role]), CellOf(w.dims, p);
    && Lists(l.enters, Entering(w.dims, s.pos, from, to))
    && Lists(l.leaves, Entering(w.dims, s.pos, to, from))
    && Lists(l.visible, Neighbours(w.dims, s.pos, role))
    && (forall i | 0 <= i < |l.enters| :: l.enters[i] in s.shown)
    && var conns := w.MoveConns();
       var met := Meet(w.net, conns, s, l.enters, Info(role, "", p));
       var parted := Part(met, conns, l.leaves, role);
       w' == w.(scenes := w.scenes[m := s],
                net := Broadcast(parted, conns, l.visible, role, p),
                lastMove := w.lastMove[role := now],
                saved := w.saved + [Saved(role, p, m)])
  }

  /** The move itself does not depend on when the role last moved. */
  lemma MoveForgetsLast(w: World, w1: World, role: int64, m: int64, p: Vec, now: int, l: Lists3, w': World)
    requires w.dims.Ok() && w.Holds(m, role) && role in w.scenes[m].shown
    requires w1 == w.(lastMove := w.lastMove[role := now]) && MoveWith(w1, role, m, p, now, l, w')
    ensures MoveWith(w, role, m, p, now, l, w')
  {
    assert w1.lastMove[role := now] == w.lastMove[role := now];
  }

  datatype Event =
    | Enter(conn: int64, role: int64, mapId: int64, name: string, pos: Vec)
    | Leave(role: int64, mapId: int64)
    | Move(role: int64, x: real, y: real, now: int)
    | Drop(role: int64)

  /** PlayerEnterScene. */
  ghost predicate EnterStep(w: World, role: int64, m: int64, name: string, p: Vec, w': World)
    requires w.dims.Ok()
  {
    exists others :: EnterWith(w, role, m, name, p, others, w')
  }

  /** PlayerLeaveScene. */
  ghost predicate LeaveStep(w: World, role: int64, m: int64, w': World)
    requires w.dims.Ok()
  {
    if m in w.scenes then exists others :: LeaveWith(w, role, m, others, w') else w' == w
  }

  /** HandleMove: without effect for a role in no scene or too soon after the last move. */
  ghost predicate MoveStep(w: World, role: int64, x: real, y: real, now: int, w': World)
    requires w.dims.Ok()
  {
    if (exists m :: w.Holds(m, role)) && Permits(w.lastMove, w.interval, role, now) then
      exists m, l :: w.Holds(m, role) && role in w.scenes[m].shown
                     && MoveWith(w, role, m, Vec(ClampCoord(x), ClampCoord(y)), now, l, w')
    else w' == w
  }

  /** The lobby binds the connection to a role; the role it was bound to before is found on it no more. */
  function Bound(w: World, conn: int64, role: int64): World {
    w.(lobby := (map q | q in w.lobby && w.lobby[q] != conn :: w.lobby[q])[role := conn])
  }

  /** In Enter the lobby binds the connection first; Drop is the lobby losing the role's connection. */
  ghost predicate Step(w: World, ev: Event, w': World)
    requires w.dims.Ok()
  {
    match ev
    case Enter(c, role, m, name, p) => EnterStep(Bound(w, c, role), role, m, name, p, w')
    case Leave(role, m) => LeaveStep(w, role, m, w')
    case Move(role, x, y, now) => MoveStep(w, role, x, y, now, w')
    case Drop(role) => w' == w.(lobby := w.lobby - {role})
  }
}
