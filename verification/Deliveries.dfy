/** What is sent over a run of the service: numbers, their order, and where players are said to be. */
module Deliveries {
  import opened GoTypes
  import opened Geometry
  import opened Grid
  import opened SceneModel
  import opened MoveLimit
  import opened AoiWorld
  import V = Views

  // ---------------------------------------------------------------------
  // Numbers
  // ---------------------------------------------------------------------

  /** The n-th value of a 32-bit counter that starts at 0, and as a signed number. */
  function Unsigned(n: nat): nat {
    n % 0x1_0000_0000
  }

  function SignedValue(n: nat): int {
    if Unsigned(n) < 0x8000_0000 then Unsigned(n) else Unsigned(n) - 0x1_0000_0000
  }

  /** Messages about views carry the number in their header, broadcasts in their body. */
  ghost predicate Carries(d: Delivery, n: nat) {
    if d.msg.MoveBroadcast? then d.header == 0 && d.msg.sequence == SignedValue(n) else d.header == Unsigned(n)
  }

  /** A coordinate of the map. */
  predicate OnMap(p: Vec) {
    0.0 <= p.x <= 1000.0 && 0.0 <= p.y <= 1000.0
  }

  /** Deliveries of the same number are copies of one broadcast. */
  ghost predicate InTurn(a: Delivery, m: nat, b: Delivery, n: nat) {
    m <= n && (m == n ==> a.msg == b.msg && a.msg.MoveBroadcast?)
  }

  /** ts are the numbers of the deliveries of log; they go up, and no two messages share one. */
  ghost predicate Numbers(log: seq<Delivery>, ts: seq<nat>, last: nat) {
    && |ts| == |log|
    && (forall i | 0 <= i < |log| :: Carries(log[i], ts[i]) && 1 <= ts[i] <= last)
    && (forall i, j | 0 <= i < j < |log| :: InTurn(log[i], ts[i], log[j], ts[j]))
  }

  /** How many of the deliveries are not copies of a broadcast. */
  function Announced(log: seq<Delivery>): nat {
    if log == [] then 0
    else Announced(log[..|log| - 1]) + if log[|log| - 1].msg.MoveBroadcast? then 0 else 1
  }

  ghost predicate BroadcastsOnMap(log: seq<Delivery>) {
    forall i | 0 <= i < |log| && log[i].msg.MoveBroadcast? :: OnMap(log[i].msg.pos)
  }

  /** After a number of accepted moves: each of them, and each message about views, has taken one number. */
  ghost predicate Numbered(net: Net, moves: nat) {
    && net.ticks == Announced(net.log) + moves && BroadcastsOnMap(net.log)
    && exists ts: seq<nat> :: Numbers(net.log, ts, net.ticks)
  }

  lemma AnnouncedSnoc(log: seq<Delivery>, d: Delivery)
    ensures Announced(log + [d]) == Announced(log) + if d.msg.MoveBroadcast? then 0 else 1
  {
    assert (log + [d])[..|log|] == log;
  }

  lemma NumbersSnoc(log: seq<Delivery>, ts: seq<nat>, last: nat, d: Delivery)
    requires Numbers(log, ts, last) && Carries(d, last + 1)
    ensures Numbers(log + [d], ts + [last + 1], last + 1)
  {
    hide Carries;
    var more, all := ts + [last + 1], log + [d];
    forall i | 0 <= i < |all| ensures Carries(all[i], more[i]) && 1 <= more[i] <= last + 1 {
      if i < |log| { assert Carries(log[i], ts[i]); }
    }
    forall i, j | 0 <= i < j < |all| ensures InTurn(all[i], more[i], all[j], more[j]) {
      if j < |log| { assert InTurn(log[i], ts[i], log[j], ts[j]); } else { assert Carries(log[i], ts[i]); }
    }
  }

  lemma SendNumbered(net: Net, to: Option<int64>, msg: Msg, moves: nat)
    requires Numbered(net, moves) && !msg.MoveBroadcast?
    ensures Numbered(Send(net, to, msg), moves)
  {
    if to.Some? {
      var d := Delivery(to.value, Counter(net.ticks + 1), msg);
      AnnouncedSnoc(net.log, d);
      var ts: seq<nat> :| Numbers(net.log, ts, net.ticks);
      NumbersSnoc(net.log, ts, net.ticks, d);
      hide Numbers, Announced;
    }
  }

  lemma {:induction false} TellNumbered(net: Net, conns: map<int64, int64>, ids: seq<int64>, msg: Msg, moves: nat)
    requires Numbered(net, moves) && !msg.MoveBroadcast?
    ensures Numbered(Tell(net, conns, ids, msg), moves)
  {
    hide Numbered, Send;
    if ids == [] {
    } else {
      var init := ids[..|ids| - 1];
      TellNumbered(net, conns, init, msg, moves);
      SendNumbered(Tell(net, conns, init, msg), Find(conns, ids[|ids| - 1]), msg, moves);
    }
  }

  lemma {:induction false} MeetNumbered(net: Net, conns: map<int64, int64>, s: SceneState, enters: seq<int64>, me: Info,
                                          moves: nat)
    requires Numbered(net, moves) && forall i | 0 <= i < |enters| :: enters[i] in s.shown
    ensures Numbered(Meet(net, conns, s, enters, me), moves)
  {
    hide Numbered, Send;
    if enters == [] {
    } else {
      var init, o := enters[..|enters| - 1], enters[|enters| - 1];
      MeetNumbered(net, conns, s, init, me, moves);
      var met := Meet(net, conns, s, init, me);
      SendNumbered(met, Find(conns, o), AOIEnter([me]), moves);
      SendNumbered(Send(met, Find(conns, o), AOIEnter([me])), Find(conns, me.id), AOIEnter([s.shown[o]]), moves);
    }
  }

  lemma {:induction false} PartNumbered(net: Net, conns: map<int64, int64>, leaves: seq<int64>, id: int64, moves: nat)
    requires Numbered(net, moves)
    ensures Numbered(Part(net, conns, leaves, id), moves)
  {
    hide Numbered, Send;
    if leaves == [] {
    } else {
      var init, o := leaves[..|leaves| - 1], leaves[|leaves| - 1];
      PartNumbered(net, conns, init, id, moves);
      var parted := Part(net, conns, init, id);
      SendNumbered(parted, Find(conns, o), AOILeave([id]), moves);
      SendNumbered(Send(parted, Find(conns, o), AOILeave([id])), Find(conns, id), AOILeave([o]), moves);
    }
  }

  lemma GreetNumbered(net: Net, conns: map<int64, int64>, s: SceneState, others: seq<int64>, me: Info, moves: nat)
    requires Numbered(net, moves) && forall i | 0 <= i < |others| :: others[i] in s.shown
    ensures Numbered(Greet(net, conns, s, others, me), moves)
  {
    hide Numbered, Send, Tell;
    var told := if |others| > 0 then Send(net, Find(conns, me.id), AOIEnter(Infos(s, others))) else net;
    SendNumbered(net, Find(conns, me.id), AOIEnter(Infos(s, others)), moves);
    TellNumbered(told, conns, others, AOIEnter([me]), moves);
  }

  /** The copies of a broadcast share the last number; ts are the numbers of what was sent before it. */
  ghost predicate Casting(net: Net, log: seq<Delivery>, ts: seq<nat>, msg: Msg) {
    && net.ticks >= 1 && |log| <= |net.log| && net.log[..|log|] == log && Numbers(log, ts, net.ticks - 1)
    && Announced(net.log) == Announced(log)
    && forall i | |log| <= i < |net.log| :: net.log[i].msg == msg && net.log[i].header == 0
  }

  lemma {:induction false} ShoutCasts(net: Net, conns: map<int64, int64>, ids: seq<int64>, msg: Msg, log: seq<Delivery>,
                                        ts: seq<nat>)
    requires Casting(net, log, ts, msg) && msg.MoveBroadcast?
    ensures Casting(Shout(net, conns, ids, msg), log, ts, msg) && Shout(net, conns, ids, msg).ticks == net.ticks
  {
    if ids == [] {
    } else {
      var init, to := ids[..|ids| - 1], Find(conns, ids[|ids| - 1]);
      ShoutCasts(net, conns, init, msg, log, ts);
      if to.Some? { AnnouncedSnoc(Shout(net, conns, init, msg).log, Delivery(to.value, 0, msg)); }
    }
  }

  lemma CastNumbered(net: Net, log: seq<Delivery>, ts: seq<nat>, msg: Msg, moves: nat)
    requires Casting(net, log, ts, msg) && msg.MoveBroadcast? && msg.sequence == SignedValue(net.ticks)
    requires net.ticks == Announced(log) + moves && BroadcastsOnMap(log) && OnMap(msg.pos)
    ensures Numbered(net, moves)
  {
    var all := ts + seq(|net.log| - |log|, i => net.ticks);
    assert forall i | 0 <= i < |log| :: net.log[i] == log[i];
    assert Numbers(net.log, all, net.ticks);
  }

  lemma SignedCounter(n: nat)
    ensures ToInt32(Counter(n)) == SignedValue(n)
  {}

  lemma BroadcastNumbered(net: Net, conns: map<int64, int64>, ids: seq<int64>, id: int64, p: Vec, moves: nat)
    requires Numbered(net, moves) && OnMap(p)
    ensures Numbered(Broadcast(net, conns, ids, id, p), moves + 1)
  {
    var ts: seq<nat> :| Numbers(net.log, ts, net.ticks);
    var msg := MoveBroadcast(id, p, ToInt32(Counter(net.ticks + 1)));
    var next := net.(ticks := net.ticks + 1);
    assert net.log[..|net.log|] == net.log;
    SignedCounter(net.ticks + 1);
    assert Casting(next, net.log, ts, msg);
    hide Casting, Numbers, Announced, OnMap, BroadcastsOnMap, Shout, ToInt32, SignedValue, Counter;
    ShoutCasts(next, conns, ids, msg, net.log, ts);
    CastNumbered(Shout(next, conns, ids, msg), net.log, ts, msg, moves + 1);
  }

  // ---------------------------------------------------------------------
  // Moves
  // ---------------------------------------------------------------------

  /** A move of role is let through: it is in a scene, and long enough after its last one that counts. */
  ghost predicate LetThrough(w: World, role: int64, now: int) {
    (exists m :: w.Holds(m, role)) && Permits(w.lastMove, w.interval, role, now)
  }

  /**
   * What a move that is let through does: in its scene m the role goes to the place of the map nearest to the request,
   * that place is cached for it, and the time counts as its last move. Nothing else of the service changes but
   * what is reported and sent.
   */
  ghost predicate MovedIn(w: World, role: int64, x: real, y: real, now: int, m: int64, w': World) {
    && w.Holds(m, role) && m in w'.scenes && role in w'.scenes[m].pos
    && var p := w'.scenes[m].pos[role];
       && NearestOnMap(x, p.x) && NearestOnMap(y, p.y)
       && w'.scenes[m].pos == w.scenes[m].pos[role := p] && w'.saved == w.saved + [Saved(role, p, m)]
       && w'.scenes == w.scenes[m := w'.scenes[m]] && w'.lastMove == w.lastMove[role := now]
       && w' == w.(scenes := w'.scenes, lastMove := w'.lastMove, saved := w'.saved, net := w'.net)
  }

  lemma MoveEffect(w: World, role: int64, x: real, y: real, now: int, w': World)
    requires w.dims.Ok() && MoveStep(w, role, x, y, now, w')
    ensures if LetThrough(w, role, now) then exists m :: MovedIn(w, role, x, y, now, m, w') else w' == w
  {
    hide Meet, Part, Broadcast, CellOf, Lists, Entering, Neighbours, Permits;
    if LetThrough(w, role, now) {
      var p := Vec(ClampCoord(x), ClampCoord(y));
      var m, l :| w.Holds(m, role) && role in w.scenes[m].shown && MoveWith(w, role, m, p, now, l, w');
      ClampIff(x, p.x);
      ClampIff(y, p.y);
      assert Moved(w.dims, w.scenes[m], role, p).pos == w.scenes[m].pos[role := p];
      hide ClampCoord, NearestOnMap, Moved;
      assert MovedIn(w, role, x, y, now, m, w');
    }
  }

  lemma MoveNumbered(w: World, role: int64, x: real, y: real, now: int, w': World)
    requires w.dims.Ok() && MoveStep(w, role, x, y, now, w') && Numbered(w.net, |w.saved|)
    ensures Numbered(w'.net, |w'.saved|)
  {
    hide Numbered, CellOf, Lists, Entering, Neighbours, Meet, Part, Broadcast;
    if LetThrough(w, role, now) {
      var p := Vec(ClampCoord(x), ClampCoord(y));
      var m, l :| w.Holds(m, role) && role in w.scenes[m].shown && MoveWith(w, role, m, p, now, l, w');
      var s, conns := Moved(w.dims, w.scenes[m], role, p), w.MoveConns();
      var met := Meet(w.net, conns, s, l.enters, Info(role, "", p));
      MeetNumbered(w.net, conns, s, l.enters, Info(role, "", p), |w.saved|);
      PartNumbered(met, conns, l.leaves, role, |w.saved|);
      BroadcastNumbered(Part(met, conns, l.leaves, role), conns, l.visible, role, p, |w.saved|);
    }
  }

  // ---------------------------------------------------------------------
  // The order within a move
  // ---------------------------------------------------------------------

  function Phase(msg: Msg): nat {
    match msg
    case AOIEnter(_) => 0
    case AOILeave(_) => 1
    case MoveBroadcast(_, _, _) => 2
  }

  /** after is before and more, all of one phase. */
  ghost predicate Adds(before: seq<Delivery>, after: seq<Delivery>, phase: nat) {
    before <= after && forall i | |before| <= i < |after| :: Phase(after[i].msg) == phase
  }

  lemma {:induction false} MeetAdds(net: Net, conns: map<int64, int64>, s: SceneState, enters: seq<int64>, me: Info)
    requires forall i | 0 <= i < |enters| :: enters[i] in s.shown
    ensures Adds(net.log, Meet(net, conns, s, enters, me).log, 0)
  {
    if enters != [] { MeetAdds(net, conns, s, enters[..|enters| - 1], me); }
  }

  lemma {:induction false} PartAdds(net: Net, conns: map<int64, int64>, leaves: seq<int64>, id: int64)
    ensures Adds(net.log, Part(net, conns, leaves, id).log, 1)
  {
    if leaves != [] { PartAdds(net, conns, leaves[..|leaves| - 1], id); }
  }

  lemma {:induction false} ShoutAdds(net: Net, conns: map<int64, int64>, ids: seq<int64>, msg: Msg)
    requires msg.MoveBroadcast?
    ensures Adds(net.log, Shout(net, conns, ids, msg).log, 2)
  {
    if ids != [] { ShoutAdds(net, conns, ids[..|ids| - 1], msg); }
  }

  /** A move sends who comes into view before who leaves it, and the broadcasts last. */
  lemma MoveInPhases(w: World, role: int64, x: real, y: real, now: int, w': World)
    requires w.dims.Ok() && MoveStep(w, role, x, y, now, w')
    ensures w.net.log <= w'.net.log
    ensures forall i, j | |w.net.log| <= i < j < |w'.net.log| :: Phase(w'.net.log[i].msg) <= Phase(w'.net.log[j].msg)
  {
    hide CellOf, Lists, Entering, Neighbours, Meet, Part, Shout, Phase;
    if LetThrough(w, role, now) {
      var p := Vec(ClampCoord(x), ClampCoord(y));
      var m, l :| w.Holds(m, role) && role in w.scenes[m].shown && MoveWith(w, role, m, p, now, l, w');
      var s, conns := Moved(w.dims, w.scenes[m], role, p), w.MoveConns();
      var met := Meet(w.net, conns, s, l.enters, Info(role, "", p));
      var parted := Part(met, conns, l.leaves, role);
      MeetAdds(w.net, conns, s, l.enters, Info(role, "", p));
      PartAdds(met, conns, l.leaves, role);
      ShoutAdds(parted.(ticks := parted.ticks + 1), conns, l.visible,
                MoveBroadcast(role, p, ToInt32(Counter(parted.ticks + 1))));
      PhasesRise(w.net.log, met.log, parted.log, w'.net.log);
    }
  }

  lemma PhasesRise(a: seq<Delivery>, b: seq<Delivery>, c: seq<Delivery>, d: seq<Delivery>)
    requires Adds(a, b, 0) && Adds(b, c, 1) && Adds(c, d, 2)
    ensures a <= d && forall i, j | |a| <= i < j < |d| :: Phase(d[i].msg) <= Phase(d[j].msg)
  {
    hide Phase;
    forall i | |a| <= i < |d|
      ensures Phase(d[i].msg) == if i < |b| then 0 else if i < |c| then 1 else 2
    {
      if i < |b| { assert d[i] == c[i] == b[i]; } else if i < |c| { assert d[i] == c[i]; }
    }
  }

  // ---------------------------------------------------------------------
  // Runs
  // ---------------------------------------------------------------------

  ghost predicate SavedOnMap(saved: seq<Saved>) {
    forall i | 0 <= i < |saved| :: OnMap(saved[i].pos)
  }

  lemma StepSaves(w: World, ev: Event, w': World)
    requires w.dims.Ok() && Step(w, ev, w') && SavedOnMap(w.saved)
    ensures SavedOnMap(w'.saved)
  {
    hide MoveStep, LetThrough, Greet, Tell, Lists, Neighbours, Added, Removed;
    if ev.Move? {
      MoveEffect(w, ev.role, ev.x, ev.y, ev.now, w');
    } else {
      assert w'.saved == w.saved;
    }
  }

  lemma StepNumbered(w: World, ev: Event, w': World)
    requires w.dims.Ok() && Step(w, ev, w') && Numbered(w.net, |w.saved|)
    ensures Numbered(w'.net, |w'.saved|)
  {
    hide Numbered, MoveStep, Greet, Tell, Lists, Neighbours, Added, Removed;
    match ev
    case Enter(c, role, m, name, p) =>
      var wb := Bound(w, c, role);
      var others :| EnterWith(wb, role, m, name, p, others, w');
      var s := Added(w.dims, wb.SceneOf(m), role, name, p);
      GreetNumbered(w.net, wb.lobby, s, others, Info(role, name, p), |w.saved|);
    case Leave(role, m) =>
      if m in w.scenes {
        var others :| LeaveWith(w, role, m, others, w');
        TellNumbered(w.net, w.lobby, others, AOILeave([role]), |w.saved|);
      }
    case Move(role, x, y, now) => MoveNumbered(w, role, x, y, now, w');
    case Drop(_) =>
  }

  /**
   * Over every run, whatever enters, leaves and moves: all that is cached and broadcast is on the map; and messages
   * are numbered in the order in which they are sent, one number for each message about views and for each
   * accepted move, whose broadcast is the only one to share it.
   */
  lemma {:induction false} RunNumbered(worlds: seq<World>, evs: seq<Event>, n: nat)
    requires V.Run(worlds, evs) && n < |worlds|
    ensures SavedOnMap(worlds[n].saved) && Numbered(worlds[n].net, |worlds[n].saved|)
  {
    hide Step, Numbered, SavedOnMap;
    if n == 0 {
      StartNumbered(worlds[0]);
    } else {
      RunNumbered(worlds, evs, n - 1);
      StepSaves(worlds[n - 1], evs[n - 1], worlds[n]);
      StepNumbered(worlds[n - 1], evs[n - 1], worlds[n]);
    }
  }

  lemma StartNumbered(w: World)
    requires V.Initial(w)
    ensures SavedOnMap(w.saved) && Numbered(w.net, |w.saved|)
  {
    var ts: seq<nat> := [];
    assert Numbers(w.net.log, ts, 0);
  }
}
