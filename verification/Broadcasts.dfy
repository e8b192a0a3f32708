/** Who hears of a move, and in what order the broadcasts are numbered. */
module Broadcasts {
  import opened GoTypes
  import opened Geometry
  import opened Grid
  import opened SceneModel
  import opened MoveLimit
  import opened AoiWorld
  import opened Views

  /** The move broadcasts delivered to a connection, in order. */
  ghost function Heard(log: seq<Delivery>, conn: int64): seq<Msg> {
    if log == [] then []
    else
      var last := log[|log| - 1];
      var heard := Heard(log[..|log| - 1], conn);
      if last.conn == conn && last.msg.MoveBroadcast? then heard + [last.msg] else heard
  }

  lemma HeardSnoc(log: seq<Delivery>, d: Delivery, conn: int64)
    ensures Heard(log + [d], conn) ==
            if d.conn == conn && d.msg.MoveBroadcast? then Heard(log, conn) + [d.msg] else Heard(log, conn)
  {
    assert (log + [d])[..|log|] == log;
  }

  lemma SendUnheard(net: Net, to: Option<int64>, msg: Msg, conn: int64)
    requires !msg.MoveBroadcast?
    ensures Heard(Send(net, to, msg).log, conn) == Heard(net.log, conn)
    ensures Send(net, to, msg).ticks >= net.ticks
  {
    if to.Some? {
      HeardSnoc(net.log, Delivery(to.value, Counter(net.ticks + 1), msg), conn);
    }
  }

  lemma {:induction false} TellUnheard(net: Net, conns: map<int64, int64>, ids: seq<int64>, msg: Msg, conn: int64)
    requires !msg.MoveBroadcast?
    ensures Heard(Tell(net, conns, ids, msg).log, conn) == Heard(net.log, conn)
    ensures Tell(net, conns, ids, msg).ticks >= net.ticks
  {
    if ids == [] {
    } else {
      var init := ids[..|ids| - 1];
      TellUnheard(net, conns, init, msg, conn);
      SendUnheard(Tell(net, conns, init, msg), Find(conns, ids[|ids| - 1]), msg, conn);
    }
  }

  lemma {:induction false} MeetUnheard(net: Net, conns: map<int64, int64>, s: SceneState, enters: seq<int64>, me: Info,
                                         conn: int64)
    requires forall i | 0 <= i < |enters| :: enters[i] in s.shown
    ensures Heard(Meet(net, conns, s, enters, me).log, conn) == Heard(net.log, conn)
    ensures Meet(net, conns, s, enters, me).ticks >= net.ticks
  {
    if enters == [] {
    } else {
      var init, o := enters[..|enters| - 1], enters[|enters| - 1];
      MeetUnheard(net, conns, s, init, me, conn);
      var met := Meet(net, conns, s, init, me);
      SendUnheard(met, Find(conns, o), AOIEnter([me]), conn);
      SendUnheard(Send(met, Find(conns, o), AOIEnter([me])), Find(conns, me.id), AOIEnter([s.shown[o]]), conn);
    }
  }

  lemma {:induction false} PartUnheard(net: Net, conns: map<int64, int64>, leaves: seq<int64>, id: int64, conn: int64)
    ensures Heard(Part(net, conns, leaves, id).log, conn) == Heard(net.log, conn)
    ensures Part(net, conns, leaves, id).ticks >= net.ticks
  {
    if leaves == [] {
    } else {
      var init, o := leaves[..|leaves| - 1], leaves[|leaves| - 1];
      PartUnheard(net, conns, init, id, conn);
      var parted := Part(net, conns, init, id);
      SendUnheard(parted, Find(conns, o), AOILeave([id]), conn);
      SendUnheard(Send(parted, Find(conns, o), AOILeave([id])), Find(conns, id), AOILeave([o]), conn);
    }
  }

  ghost function Once(b: bool, msg: Msg): seq<Msg> {
    if b then [msg] else []
  }

  /** No two roles share a connection. */
  ghost predicate Injective(conns: map<int64, int64>) {
    forall q: int64, r: int64 :: q in conns && r in conns && conns[q] == conns[r] ==> q == r
  }

  /** A broadcast to different roles is heard once on each connection it reaches. */
  lemma {:induction false} ShoutHeard(net: Net, conns: map<int64, int64>, ids: seq<int64>, msg: Msg, conn: int64)
    requires msg.MoveBroadcast? && Distinct(ids) && Injective(conns)
    ensures Heard(Shout(net, conns, ids, msg).log, conn) == Heard(net.log, conn) + Once(Reaches(conns, ids, conn), msg)
    ensures Shout(net, conns, ids, msg).ticks == net.ticks
  {
    if ids == [] {
    } else {
      var init, last := ids[..|ids| - 1], ids[|ids| - 1];
      ShoutHeard(net, conns, init, msg, conn);
      var to := Find(conns, last);
      if to.Some? {
        HeardSnoc(Shout(net, conns, init, msg).log, Delivery(to.value, 0, msg), conn);
      }
      ReachesSnoc(conns, ids, conn);
      if to == Some(conn) {
        ReachedOnce(conns, ids, conn);
      }
    }
  }

  lemma ReachedOnce(conns: map<int64, int64>, ids: seq<int64>, conn: int64)
    requires ids != [] && Distinct(ids) && Injective(conns) && Find(conns, ids[|ids| - 1]) == Some(conn)
    ensures !Reaches(conns, ids[..|ids| - 1], conn)
  {
    var init := ids[..|ids| - 1];
    forall i | 0 <= i < |init| ensures Find(conns, init[i]) != Some(conn) {
      assert ids[i] != ids[|ids| - 1];
    }
  }

  lemma MoveConnsInjective(w: World)
    requires Separate(w)
    ensures Injective(w.MoveConns())
  {
    forall q: int64, r: int64 | q in w.MoveConns() && r in w.MoveConns() && w.MoveConns()[q] == w.MoveConns()[r]
      ensures q == r
    {
      assert Apart(w, q, r) && Apart(w, r, q);
    }
  }

  /** The number a move's broadcast carries. */
  ghost function MoveNumber(w: World, role: int64, m: int64, p: Vec, l: Lists3): nat
    requires w.dims.Ok() && w.Holds(m, role) && role in w.scenes[m].shown
    requires forall i | 0 <= i < |l.enters| :: l.enters[i] in Moved(w.dims, w.scenes[m], role, p).shown
  {
    var met := Meet(w.net, w.MoveConns(), Moved(w.dims, w.scenes[m], role, p), l.enters, Info(role, "", p));
    Part(met, w.MoveConns(), l.leaves, role).ticks + 1
  }

  /** What all that a move sends adds to what a connection hears. */
  lemma SentHeard(net: Net, conns: map<int64, int64>, s: SceneState, l: Lists3, role: int64, p: Vec, conn: int64)
    requires Distinct(l.visible) && Injective(conns) && forall i | 0 <= i < |l.enters| :: l.enters[i] in s.shown
    ensures var parted := Part(Meet(net, conns, s, l.enters, Info(role, "", p)), conns, l.leaves, role);
            var sent, n := Broadcast(parted, conns, l.visible, role, p), parted.ticks + 1;
            && n > net.ticks && sent.ticks == n
            && Heard(sent.log, conn) == Heard(net.log, conn)
                 + Once(Reaches(conns, l.visible, conn), MoveBroadcast(role, p, ToInt32(Counter(n))))
  {
    hide Heard, Meet, Part, Shout, Injective, ToInt32, Counter, Reaches;
    var met := Meet(net, conns, s, l.enters, Info(role, "", p));
    var parted := Part(met, conns, l.leaves, role);
    MeetUnheard(net, conns, s, l.enters, Info(role, "", p), conn);
    PartUnheard(met, conns, l.leaves, role, conn);
    ShoutHeard(parted.(ticks := parted.ticks + 1), conns, l.visible,
               MoveBroadcast(role, p, ToInt32(Counter(parted.ticks + 1))), conn);
  }

  /** What one move adds to what a connection hears. */
  lemma MoveHeard(w: World, role: int64, m: int64, p: Vec, now: int, l: Lists3, w': World, conn: int64)
    requires Formed(w) && Separate(w)
    requires w.Holds(m, role) && role in w.scenes[m].shown && MoveWith(w, role, m, p, now, l, w')
    ensures var n := MoveNumber(w, role, m, p, l);
            && n > w.net.ticks && w'.net.ticks == n
            && Heard(w'.net.log, conn) == Heard(w.net.log, conn)
                 + Once(Reaches(w.MoveConns(), l.visible, conn), MoveBroadcast(role, p, ToInt32(Counter(n))))
  {
    MoveConnsInjective(w);
    hide Heard, Meet, Part, Broadcast, Moved, CellOf, Entering, Neighbours, Injective, Separate, Formed, Reaches;
    SentHeard(w.net, w.MoveConns(), Moved(w.dims, w.scenes[m], role, p), l, role, p, conn);
  }

  lemma SeersAreReached(w: World, role: int64, m: int64, p: Vec, now: int, l: Lists3, w': World, k: int64, r: int64)
    requires Sound(w) && w.Holds(m, role) && role in w.scenes[m].shown && MoveWith(w, role, m, p, now, l, w')
    requires w.Holds(k, r) && w.Live(r)
    ensures Reaches(w.MoveConns(), l.visible, w.lobby[r]) <==> role in w'.View(r)
  {
    LiveOnlyFor(w, r);
    ReachedIsListed(w.MoveConns(), l.visible, Neighbours(w.dims, w'.scenes[m].pos, role), w.lobby[r], r);
    assert SeesTruly(w', k, r) by {
      SeesAfterMove(w, role, m, p, now, l, w', k, r);
    }
    if k == m {
      Mutual(w.dims, w'.scenes[m].pos, role, r);
    } else {
      assert !w.Holds(m, r) && !w.Holds(k, role);
    }
  }

  /**
   * Broadcast agrees with views: an accepted move is heard exactly once by exactly those whose view,
   * after the move's own enter and leave messages, contains the mover; with the clamped position.
   */
  lemma HeardBySeers(w: World, role: int64, m: int64, p: Vec, now: int, l: Lists3, w': World, k: int64, r: int64)
    requires Sound(w) && w.Holds(m, role) && role in w.scenes[m].shown && MoveWith(w, role, m, p, now, l, w')
    requires w.Holds(k, r) && w.Live(r)
    ensures w'.Live(r)
    ensures Heard(w'.net.log, w.lobby[r]) == Heard(w.net.log, w.lobby[r])
              + Once(role in w'.View(r), MoveBroadcast(role, p, ToInt32(Counter(MoveNumber(w, role, m, p, l)))))
  {
    MoveHeard(w, role, m, p, now, l, w', w.lobby[r]);
    assert Reaches(w.MoveConns(), l.visible, w.lobby[r]) <==> role in w'.View(r) by {
      SeersAreReached(w, role, m, p, now, l, w', k, r);
    }
  }

  // ---------------------------------------------------------------------
  // Sequence numbers
  // ---------------------------------------------------------------------

  /** How often the signed number has turned negative by tick n. */
  function Epoch(n: nat): nat {
    (n + 0x8000_0000) / 0x1_0000_0000
  }

  /**
   * Less than 2^32 ticks apart, the later of two numbers is the larger one exactly if the counter did not
   * reach 2^31 in between.
   */
  lemma NumbersGoUpIff(n: nat, later: nat)
    requires n < later < n + 0x1_0000_0000
    ensures ToInt32(Counter(later)) > ToInt32(Counter(n)) <==> Epoch(later) == Epoch(n)
  {
    NumberInEpoch(n);
    NumberInEpoch(later);
  }

  lemma NumberInEpoch(n: nat)
    ensures ToInt32(Counter(n)) == n - Epoch(n) * 0x1_0000_0000
  {}

  /** The messages heard carry the counter's values at the ticks ts, which go up to at most now. */
  ghost predicate Stamped(heard: seq<Msg>, ts: seq<nat>, now: nat) {
    && |ts| == |heard|
    && (forall i | 0 <= i < |heard| ::
          heard[i].MoveBroadcast? && heard[i].sequence == ToInt32(Counter(ts[i])) && ts[i] <= now)
    && (forall i, j | 0 <= i < j < |ts| :: ts[i] < ts[j])
  }

  ghost predicate AllStamped(net: Net) {
    forall conn: int64 :: StampedOn(net, conn)
  }

  ghost predicate StampedOn(net: Net, conn: int64) {
    exists ts :: Stamped(Heard(net.log, conn), ts, net.ticks)
  }

  /** Hearing nothing more, or one message of a later tick. */
  lemma StampedMore(net: Net, net': Net, conn: int64, b: bool, role: int64, p: Vec)
    requires StampedOn(net, conn) && net.ticks <= net'.ticks && (b ==> net.ticks < net'.ticks)
    requires Heard(net'.log, conn) ==
             Heard(net.log, conn) + Once(b, MoveBroadcast(role, p, ToInt32(Counter(net'.ticks))))
    ensures StampedOn(net', conn)
  {
    var ts :| Stamped(Heard(net.log, conn), ts, net.ticks);
    assert Stamped(Heard(net'.log, conn), if b then ts + [net'.ticks] else ts, net'.ticks);
  }

  lemma MoveStamps(w: World, role: int64, m: int64, p: Vec, now: int, l: Lists3, w': World)
    requires Formed(w) && Separate(w) && AllStamped(w.net)
    requires w.Holds(m, role) && role in w.scenes[m].shown && MoveWith(w, role, m, p, now, l, w')
    ensures AllStamped(w'.net)
  {
    hide MoveWith;
    forall conn: int64 ensures StampedOn(w'.net, conn) {
      assert StampedOn(w.net, conn);
      MoveHeard(w, role, m, p, now, l, w', conn);
      StampedMore(w.net, w'.net, conn, Reaches(w.MoveConns(), l.visible, conn), role, p);
    }
  }

  lemma GreetUnheard(net: Net, conns: map<int64, int64>, s: SceneState, others: seq<int64>, me: Info, conn: int64)
    requires forall i | 0 <= i < |others| :: others[i] in s.shown
    ensures Heard(Greet(net, conns, s, others, me).log, conn) == Heard(net.log, conn)
    ensures Greet(net, conns, s, others, me).ticks >= net.ticks
  {
    var told := if |others| > 0 then Send(net, Find(conns, me.id), AOIEnter(Infos(s, others))) else net;
    SendUnheard(net, Find(conns, me.id), AOIEnter(Infos(s, others)), conn);
    TellUnheard(told, conns, others, AOIEnter([me]), conn);
  }

  lemma EnterStamps(w: World, c: int64, role: int64, m: int64, name: string, p: Vec, others: seq<int64>, w': World)
    requires Formed(w) && AllStamped(w.net) && EnterWith(Bound(w, c, role), role, m, name, p, others, w')
    ensures AllStamped(w'.net)
  {
    var s := Added(w.dims, w.SceneOf(m), role, name, p);
    forall conn: int64 ensures StampedOn(w'.net, conn) {
      assert StampedOn(w.net, conn);
      GreetUnheard(w.net, Bound(w, c, role).lobby, s, others, Info(role, name, p), conn);
      StampedMore(w.net, w'.net, conn, false, role, p);
    }
  }

  lemma LeaveStamps(w: World, role: int64, m: int64, others: seq<int64>, w': World)
    requires Formed(w) && AllStamped(w.net) && m in w.scenes && LeaveWith(w, role, m, others, w')
    ensures AllStamped(w'.net)
  {
    forall conn: int64 ensures StampedOn(w'.net, conn) {
      assert StampedOn(w.net, conn);
      TellUnheard(w.net, w.lobby, others, AOILeave([role]), conn);
      StampedMore(w.net, w'.net, conn, false, role, Vec(0.0, 0.0));
    }
  }

  lemma StepStamps(w: World, ev: Event, w': World)
    requires Formed(w) && Separate(w) && AllStamped(w.net) && Step(w, ev, w')
    ensures AllStamped(w'.net)
  {
    hide AllStamped;
    match ev
    case Enter(c, role, m, name, p) =>
      var others :| EnterWith(Bound(w, c, role), role, m, name, p, others, w');
      EnterStamps(w, c, role, m, name, p, others, w');
    case Leave(role, m) =>
      if m in w.scenes {
        var others :| LeaveWith(w, role, m, others, w');
        LeaveStamps(w, role, m, others, w');
      }
    case Move(role, x, y, now) =>
      if (exists m :: w.Holds(m, role)) && Permits(w.lastMove, w.interval, role, now) {
        var m, l :| w.Holds(m, role) && role in w.scenes[m].shown
                    && MoveWith(w, role, m, Vec(ClampCoord(x), ClampCoord(y)), now, l, w');
        MoveStamps(w, role, m, Vec(ClampCoord(x), ClampCoord(y)), now, l, w');
      }
    case Drop(role) =>
      SameNetStamped(w.net, w'.net);
  }

  lemma SameNetStamped(net: Net, net': Net)
    requires AllStamped(net) && net' == net
    ensures AllStamped(net')
  {}

  /**
   * Over every admissible run, of any length, the broadcasts each connection hears carry the counter's values
   * at ticks that go up strictly.
   */
  lemma {:induction false} BroadcastsAreStamped(worlds: seq<World>, evs: seq<Event>, n: nat)
    requires Run(worlds, evs) && n < |worlds|
    requires forall i | 0 <= i < n :: Admissible(worlds[i], evs[i])
    ensures AllStamped(worlds[n].net)
  {
    if n == 0 {
      forall conn: int64 ensures StampedOn(worlds[0].net, conn) {
        assert Stamped(Heard(worlds[0].net.log, conn), [], 0);
      }
    } else {
      BroadcastsAreStamped(worlds, evs, n - 1);
      ViewsAreTrue(worlds, evs, n - 1);
      StepStamps(worlds[n - 1], evs[n - 1], worlds[n]);
    }
  }

  /**
   * So of two broadcasts a connection hears less than 2^32 ticks apart, the later one has the larger number
   * exactly if the counter did not reach 2^31 between them.
   */
  lemma NumbersRise(worlds: seq<World>, evs: seq<Event>, n: nat, conn: int64) returns (ts: seq<nat>)
    requires Run(worlds, evs) && n < |worlds|
    requires forall i | 0 <= i < n :: Admissible(worlds[i], evs[i])
    ensures Stamped(Heard(worlds[n].net.log, conn), ts, worlds[n].net.ticks)
    ensures var heard := Heard(worlds[n].net.log, conn);
            forall i, j | 0 <= i < j < |heard| && ts[j] < ts[i] + 0x1_0000_0000 ::
              heard[j].sequence > heard[i].sequence <==> Epoch(ts[j]) == Epoch(ts[i])
  {
    BroadcastsAreStamped(worlds, evs, n);
    var heard := Heard(worlds[n].net.log, conn);
    assert StampedOn(worlds[n].net, conn);
    ts :| Stamped(heard, ts, worlds[n].net.ticks);
    forall i, j | 0 <= i < j < |heard| && ts[j] < ts[i] + 0x1_0000_0000
      ensures heard[j].sequence > heard[i].sequence <==> Epoch(ts[j]) == Epoch(ts[i])
    {
      NumbersGoUpIff(ts[i], ts[j]);
    }
  }
}
