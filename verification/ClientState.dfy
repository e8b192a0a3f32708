/** What a client holds of the players in its view: name and position as last sent, in reports and broadcasts. */
module ClientState {
  import opened GoTypes
  import opened Geometry
  import opened Grid
  import opened SceneModel
  import opened MoveLimit
  import opened AoiWorld
  import opened Views
  import R = Reentry

  // ---------------------------------------------------------------------
  // Replaying reports
  // ---------------------------------------------------------------------

  /** What is reported of o, if anything: the last report if there are several. */
  function Reported(ps: seq<Info>, o: int64): Option<Info> {
    if ps == [] then None
    else if ps[|ps| - 1].id == o then Some(ps[|ps| - 1])
    else Reported(ps[..|ps| - 1], o)
  }

  /** What a client makes of a message: what it holds of o, if o is in its view. */
  function Noted(held: Option<Info>, msg: Msg, o: int64): Option<Info> {
    match msg
    case AOIEnter(ps) => if Reported(ps, o).Some? then Reported(ps, o) else held
    case AOILeave(ids) => if o in ids then None else held
    case MoveBroadcast(id, p, _) => if id == o && held.Some? then Some(held.value.(pos := p)) else held
  }

  function Held(log: seq<Delivery>, conn: int64, o: int64): Option<Info> {
    if log == [] then None
    else
      var last := log[|log| - 1];
      var held := Held(log[..|log| - 1], conn, o);
      if last.conn == conn then Noted(held, last.msg, o) else held
  }

  lemma {:induction false} ReportedIff(ps: seq<Info>, o: int64)
    ensures Reported(ps, o).Some? <==> o in InfoIds(ps)
  {
    if ps == [] {
    } else {
      var init := ps[..|ps| - 1];
      ReportedIff(init, o);
      if o in InfoIds(init) {
        var i :| 0 <= i < |init| && init[i].id == o;
        assert ps[i].id == o;
      }
      if o in InfoIds(ps) && ps[|ps| - 1].id != o {
        var i :| 0 <= i < |ps| && ps[i].id == o;
        assert init[i].id == o;
      }
    }
  }

  /** A client holds something of exactly the players in its view. */
  lemma {:induction false} HeldIffViewed(log: seq<Delivery>, conn: int64, o: int64)
    ensures Held(log, conn, o).Some? <==> o in Replay(log, conn)
  {
    if log == [] {
    } else {
      HeldIffViewed(log[..|log| - 1], conn, o);
      var msg := log[|log| - 1].msg;
      if msg.AOIEnter? { ReportedIff(msg.players, o); }
    }
  }

  // ---------------------------------------------------------------------
  // What each kind of sending does
  // ---------------------------------------------------------------------

  lemma HeldSnoc(log: seq<Delivery>, d: Delivery, conn: int64, o: int64)
    ensures Held(log + [d], conn, o) ==
            if d.conn == conn then Noted(Held(log, conn, o), d.msg, o) else Held(log, conn, o)
  {
    assert (log + [d])[..|log|] == log;
  }

  lemma HeldSend(net: Net, to: Option<int64>, msg: Msg, conn: int64, o: int64)
    ensures var held := Held(net.log, conn, o);
            Held(Send(net, to, msg).log, conn, o) == if to == Some(conn) then Noted(held, msg, o) else held
  {
    if to.Some? {
      HeldSnoc(net.log, Delivery(to.value, Counter(net.ticks + 1), msg), conn, o);
    }
  }

  lemma NotedOnce(held: Option<Info>, msg: Msg, o: int64)
    ensures Noted(Noted(held, msg, o), msg, o) == Noted(held, msg, o)
  {}

  lemma {:induction false} HeldTell(net: Net, conns: map<int64, int64>, ids: seq<int64>, msg: Msg, conn: int64,
                                      o: int64)
    ensures var held := Held(net.log, conn, o);
            Held(Tell(net, conns, ids, msg).log, conn, o) ==
            if Reaches(conns, ids, conn) then Noted(held, msg, o) else held
  {
    hide Send, Noted, Held;
    if ids == [] {
    } else {
      var init := ids[..|ids| - 1];
      HeldTell(net, conns, init, msg, conn, o);
      HeldSend(Tell(net, conns, init, msg), Find(conns, ids[|ids| - 1]), msg, conn, o);
      ReachesSnoc(conns, ids, conn);
      NotedOnce(Held(net.log, conn, o), msg, o);
    }
  }

  lemma {:induction false} HeldShout(net: Net, conns: map<int64, int64>, ids: seq<int64>, msg: Msg, conn: int64,
                                       o: int64)
    ensures var held := Held(net.log, conn, o);
            Held(Shout(net, conns, ids, msg).log, conn, o) ==
            if Reaches(conns, ids, conn) then Noted(held, msg, o) else held
  {
    hide Noted, Held;
    if ids == [] {
    } else {
      var init, to := ids[..|ids| - 1], Find(conns, ids[|ids| - 1]);
      HeldShout(net, conns, init, msg, conn, o);
      if to.Some? {
        HeldSnoc(Shout(net, conns, init, msg).log, Delivery(to.value, 0, msg), conn, o);
      }
      ReachesSnoc(conns, ids, conn);
      NotedOnce(Held(net.log, conn, o), msg, o);
    }
  }

  lemma {:induction false} InfosReport(s: SceneState, others: seq<int64>, o: int64)
    requires forall i | 0 <= i < |others| :: others[i] in s.shown && s.shown[others[i]].id == others[i]
    ensures Reported(Infos(s, others), o) == if o in others then Some(s.shown[o]) else None
  {
    if others == [] {
    } else {
      var init := others[..|others| - 1];
      InfosReport(s, init, o);
      assert others == init + [others[|others| - 1]];
      assert Infos(s, others)[..|others| - 1] == Infos(s, init);
    }
  }

  lemma OneReport(p: Info, o: int64)
    ensures Reported([p], o) == if p.id == o then Some(p) else None
  {
    assert [p][..0] == [];
  }

  /**
   * The messages of an entry, for the client of r: r itself is told of all around, with what they are reported
   * as, and everyone around of the newcomer.
   */
  lemma HeldGreet(net: Net, conns: map<int64, int64>, s: SceneState, others: seq<int64>, me: Info, conn: int64,
                  r: int64, o: int64)
    requires forall i | 0 <= i < |others| :: others[i] in s.shown && s.shown[others[i]].id == others[i]
    requires OnlyFor(conns, conn, r) && o != r && me.id !in others
    ensures var held := Held(net.log, conn, o);
            Held(Greet(net, conns, s, others, me).log, conn, o) ==
            if r == me.id && o in others then Some(s.shown[o])
            else if o == me.id && r in others then Some(me) else held
  {
    hide Held, Send, Reported, Infos;
    var all := AOIEnter(Infos(s, others));
    var told := if |others| > 0 then Send(net, Find(conns, me.id), all) else net;
    HeldSend(net, Find(conns, me.id), all, conn, o);
    InfosReport(s, others, o);
    HeldTell(told, conns, others, AOIEnter([me]), conn, o);
    OneReport(me, o);
    ReachedIsMember(conns, others, conn, r);
  }

  lemma ReachedIsMember(conns: map<int64, int64>, ids: seq<int64>, conn: int64, r: int64)
    requires OnlyFor(conns, conn, r)
    ensures Reaches(conns, ids, conn) <==> r in ids
  {
    if r in ids {
      var i :| 0 <= i < |ids| && ids[i] == r;
      assert Find(conns, ids[i]) == Some(conn);
    }
  }

  lemma HeldMeetOne(met: Net, conns: map<int64, int64>, e: Info, me: Info, conn: int64, r: int64, o: int64)
    requires OnlyFor(conns, conn, r) && o != r
    ensures var once := Send(met, Find(conns, e.id), AOIEnter([me]));
            Held(Send(once, Find(conns, me.id), AOIEnter([e])).log, conn, o) ==
            if r == me.id && o == e.id then Some(e)
            else if r == e.id && o == me.id then Some(me)
            else Held(met.log, conn, o)
  {
    hide Held, Send, Reported;
    var once := Send(met, Find(conns, e.id), AOIEnter([me]));
    HeldSend(met, Find(conns, e.id), AOIEnter([me]), conn, o);
    HeldSend(once, Find(conns, me.id), AOIEnter([e]), conn, o);
    OneReport(me, o);
    OneReport(e, o);
  }

  lemma {:induction false} HeldMeet(net: Net, conns: map<int64, int64>, s: SceneState, enters: seq<int64>, me: Info,
                                      conn: int64, r: int64, o: int64)
    requires forall i | 0 <= i < |enters| :: enters[i] in s.shown && s.shown[enters[i]].id == enters[i]
    requires OnlyFor(conns, conn, r) && o != r
    ensures Held(Meet(net, conns, s, enters, me).log, conn, o) ==
            if r == me.id && o in enters then Some(s.shown[o])
            else if r in enters && o == me.id then Some(me)
            else Held(net.log, conn, o)
  {
    hide Held, Send, OnlyFor;
    if enters == [] {
    } else {
      var init, e := enters[..|enters| - 1], enters[|enters| - 1];
      HeldMeet(net, conns, s, init, me, conn, r, o);
      HeldMeetOne(Meet(net, conns, s, init, me), conns, s.shown[e], me, conn, r, o);
      assert enters == init + [e];
    }
  }

  lemma HeldPartOne(parted: Net, conns: map<int64, int64>, l: int64, id: int64, conn: int64, r: int64, o: int64)
    requires OnlyFor(conns, conn, r)
    ensures var once := Send(parted, Find(conns, l), AOILeave([id]));
            Held(Send(once, Find(conns, id), AOILeave([l])).log, conn, o) ==
            if (r == id && o == l) || (r == l && o == id) then None else Held(parted.log, conn, o)
  {
    hide Held, Send;
    var once := Send(parted, Find(conns, l), AOILeave([id]));
    HeldSend(parted, Find(conns, l), AOILeave([id]), conn, o);
    HeldSend(once, Find(conns, id), AOILeave([l]), conn, o);
  }

  lemma {:induction false} HeldPart(net: Net, conns: map<int64, int64>, leaves: seq<int64>, id: int64, conn: int64,
                                      r: int64, o: int64)
    requires OnlyFor(conns, conn, r)
    ensures Held(Part(net, conns, leaves, id).log, conn, o) ==
            if (r == id && o in leaves) || (r in leaves && o == id) then None else Held(net.log, conn, o)
  {
    hide Held, Send, OnlyFor;
    if leaves == [] {
    } else {
      var init, l := leaves[..|leaves| - 1], leaves[|leaves| - 1];
      HeldPart(net, conns, init, id, conn, r, o);
      HeldPartOne(Part(net, conns, init, id), conns, l, id, conn, r, o);
      assert leaves == init + [l];
    }
  }

  lemma HeldBroadcast(net: Net, conns: map<int64, int64>, ids: seq<int64>, id: int64, p: Vec, conn: int64, r: int64,
                      o: int64)
    requires OnlyFor(conns, conn, r)
    ensures var held := Held(net.log, conn, o);
            Held(Broadcast(net, conns, ids, id, p).log, conn, o) ==
            if r in ids && o == id && held.Some? then Some(held.value.(pos := p)) else held
  {
    hide Held;
    var msg := MoveBroadcast(id, p, ToInt32(Counter(net.ticks + 1)));
    HeldShout(net.(ticks := net.ticks + 1), conns, ids, msg, conn, o);
    ReachedIsMember(conns, ids, conn, r);
  }

  // ---------------------------------------------------------------------
  // What each step does
  // ---------------------------------------------------------------------

  /**
   * Where what a client holds of a player comes from. own: its place is from the player's own move or entry, and not
   * from the grid's report. known: it was told the name, which is the one the player last entered under.
   */
  datatype Word = Word(own: bool, known: bool, name: string)

  /** The client of r, in scene m, has o by its name or none, at o's place or the one that the grid reports. */
  ghost predicate Places(w: World, m: int64, r: int64, o: int64, a: Word) {
    && w.Holds(m, o) && w.Live(r) && o in w.scenes[m].shown && Named(w.scenes[m], o, a.name)
    && Held(w.net.log, w.lobby[r], o) ==
       Some(Info(o, if a.known then a.name else "",
                 if a.own then w.scenes[m].pos[o] else w.scenes[m].shown[o].pos))
  }

  /** The scene after a move, and what of the world stays. */
  lemma AfterMove(w: World, role: int64, m: int64, p: Vec, now: int, l: Lists3, w': World)
    requires w.dims.Ok() && w.Holds(m, role) && role in w.scenes[m].shown && MoveWith(w, role, m, p, now, l, w')
    ensures w'.dims == w.dims && w'.lobby == w.lobby && w'.scenes == w.scenes[m := Moved(w.dims, w.scenes[m], role, p)]
    ensures w'.scenes[m].pos == w.scenes[m].pos[role := p]
  {
    hide CellOf, Meet, Part, Broadcast;
  }

  /** What a move makes of what the client of r holds of o. */
  lemma MoveHeld(w: World, role: int64, m: int64, p: Vec, now: int, l: Lists3, w': World, r: int64, o: int64)
    requires Formed(w) && Separate(w) && w.Live(r) && o != r
    requires w.Holds(m, role) && role in w.scenes[m].shown && MoveWith(w, role, m, p, now, l, w')
    ensures m in w'.scenes && role in w'.scenes[m].pos
    ensures var held, pos := Held(w.net.log, w.lobby[r], o), w'.scenes[m].pos;
            var from, to := CellOf(w.dims, w.scenes[m].pos[role]), CellOf(w.dims, p);
            var enter, leave := Entering(w.dims, pos, from, to), Entering(w.dims, pos, to, from);
            && (o in enter ==> o in w'.scenes[m].shown)
            && Held(w'.net.log, w.lobby[r], o) ==
               if r == role then
                 if o in leave then None else if o in enter then Some(w'.scenes[m].shown[o]) else held
               else if o == role then
                 var met := if r in leave then None else if r in enter then Some(Info(role, "", p)) else held;
                 if r in Neighbours(w.dims, pos, role) && met.Some? then Some(met.value.(pos := p)) else met
               else held
  {
    var s, conns, c := Moved(w.dims, w.scenes[m], role, p), w.MoveConns(), w.lobby[r];
    var met := Meet(w.net, conns, s, l.enters, Info(role, "", p));
    var parted := Part(met, conns, l.leaves, role);
    KeepsForm(w.dims, w.scenes[m], role, "", p);
    assert forall i | 0 <= i < |l.enters| :: WellShown(w.dims, s, l.enters[i]);
    LiveOnlyFor(w, r);
    hide Held, Meet, Part, Broadcast, OnlyFor, Entering, Neighbours, Moved, CellOf;
    HeldMeet(w.net, conns, s, l.enters, Info(role, "", p), c, r, o);
    HeldPart(met, conns, l.leaves, role, c, r, o);
    HeldBroadcast(parted, conns, l.visible, role, p, c, r, o);
  }

  /** The one who moves takes whom it newly sees from the grid's report, and holds of the others what it held. */
  lemma MoverPlaces(w: World, role: int64, m: int64, p: Vec, now: int, l: Lists3, w': World, o: int64, a: Word)
    requires Formed(w) && Separate(w) && w.Live(role)
    requires w.Holds(m, role) && role in w.scenes[m].shown && MoveWith(w, role, m, p, now, l, w')
    requires o in Neighbours(w.dims, w'.scenes[m].pos, role) && Named(w.scenes[m], o, a.name)
    requires o in Neighbours(w.dims, w.scenes[m].pos, role) ==> Places(w, m, role, o, a)
    ensures Places(w', m, role, o, if o in Neighbours(w.dims, w.scenes[m].pos, role) then a
                                   else Word(false, o in w.scenes[m].shared, a.name))
  {
    AfterMove(w, role, m, p, now, l, w');
    MoveHeld(w, role, m, p, now, l, w', role, o);
    MoveDifference(w.dims, w.scenes[m].pos, role, p);
    assert WellShown(w.dims, w.scenes[m], o);
    hide Held, CellOf, Apart, MoveWith;
  }

  /** Whoever sees the mover afterwards has it where it went; newly, without its name. */
  lemma SeerPlaces(w: World, role: int64, m: int64, p: Vec, now: int, l: Lists3, w': World, r: int64, a: Word)
    requires Formed(w) && Separate(w) && w.Live(r) && r != role && w.Holds(m, r) && SeesTruly(w, m, r)
    requires w.Holds(m, role) && role in w.scenes[m].shown && MoveWith(w, role, m, p, now, l, w')
    requires role in Neighbours(w.dims, w'.scenes[m].pos, r) && Named(w.scenes[m], role, a.name)
    requires role in Neighbours(w.dims, w.scenes[m].pos, r) ==> Places(w, m, r, role, a)
    ensures var known := a.known && role in Neighbours(w.dims, w.scenes[m].pos, r);
            Places(w', m, r, role, Word(true, known, a.name))
  {
    AfterMove(w, role, m, p, now, l, w');
    MoveHeld(w, role, m, p, now, l, w', r, role);
    MoveSeenByOther(w.dims, w.scenes[m].pos, role, p, r);
    MoveReportIff(w.dims, w.scenes[m], role, a.name, p);
    Mutual(w.dims, w'.scenes[m].pos, r, role);
    hide Held, CellOf, Apart, MoveWith;
  }

  /** Nobody else's place changes for anybody. */
  lemma OnlookerPlaces(w: World, role: int64, m: int64, p: Vec, now: int, l: Lists3, w': World, k: int64, r: int64,
                       o: int64, a: Word)
    requires Formed(w) && Separate(w) && r != role && o != role && o != r && Places(w, k, r, o, a)
    requires w.Holds(m, role) && role in w.scenes[m].shown && MoveWith(w, role, m, p, now, l, w')
    ensures Places(w', k, r, o, a)
  {
    AfterMove(w, role, m, p, now, l, w');
    MoveHeld(w, role, m, p, now, l, w', r, o);
    hide Held, CellOf, Apart, MoveWith;
  }

  ghost predicate Sees(w: World, r: int64, o: int64)
    requires w.dims.Ok()
  {
    exists m: int64 :: w.Holds(m, r) && o in Neighbours(w.dims, w.scenes[m].pos, r)
  }

  /** The grid's report of o is the manager's object, which has the name. */
  ghost predicate ByManager(w: World, o: int64) {
    exists m: int64 :: w.Holds(m, o) && o in w.scenes[m].shared
  }

  /** After a move that is let through: whoever is newly seen by it is seen without a name, or as the grid has it. */
  ghost function MovedWord(w: World, role: int64, r: int64, o: int64, a: Word): Word
    requires w.dims.Ok()
  {
    if role == o then Word(true, a.known && Sees(w, r, o), a.name)
    else if role == r && !Sees(w, r, o) then Word(false, ByManager(w, o), a.name)
    else a
  }

  /** After an entry: the newcomer is shown by its name, and those around it to it as the grid has them. */
  ghost function EnteredWord(w: World, role: int64, name: string, r: int64, o: int64, a: Word): Word {
    if role == o then Word(true, true, name) else if role == r then Word(false, ByManager(w, o), a.name) else a
  }

  ghost function WordAfter(w: World, ev: Event, r: int64, o: int64, a: Word): Word
    requires w.dims.Ok()
  {
    match ev
    case Enter(_, role, _, name, _) => EnteredWord(w, role, name, r, o, a)
    case Move(role, _, _, now) =>
      if (exists m :: w.Holds(m, role)) && Permits(w.lastMove, w.interval, role, now)
      then MovedWord(w, role, r, o, a) else a
    case _ => a
  }

  /** What the manager's object of o says is the name o last entered under. */
  ghost predicate NamedAs(w: World, o: int64, name: string) {
    forall m: int64 | w.Holds(m, o) :: Named(w.scenes[m], o, name)
  }

  /** If r sees o, its client holds of it what a says. */
  ghost predicate PlacesIfSeen(w: World, r: int64, o: int64, a: Word)
    requires w.dims.Ok()
  {
    forall m: int64 | w.Live(r) && w.Holds(m, r) && o in Neighbours(w.dims, w.scenes[m].pos, r) ::
      Places(w, m, r, o, a)
  }

  /** A move that is let through, for each who sees somebody afterwards. */
  lemma MovedPlaces(w: World, role: int64, m: int64, p: Vec, now: int, l: Lists3, w': World, k: int64, r: int64,
                    o: int64, a: Word)
    requires Sound(w) && NamedAs(w, o, a.name) && PlacesIfSeen(w, r, o, a) && w.Live(r) && w.Holds(k, r)
    requires w.Holds(m, role) && role in w.scenes[m].shown && MoveWith(w, role, m, p, now, l, w')
    requires k in w'.scenes && o in Neighbours(w.dims, w'.scenes[k].pos, r)
    ensures Places(w', k, r, o, MovedWord(w, role, r, o, a))
  {
    hide Places, Held, CellOf, MoveWith, WellFormed, Apart, Named;
    AfterMove(w, role, m, p, now, l, w');
    assert Sees(w, r, o) <==> o in Neighbours(w.dims, w.scenes[k].pos, r);
    if role == r {
      assert k == m && w.Holds(m, o);
      assert ByManager(w, o) <==> o in w.scenes[m].shared;
      MoverPlaces(w, role, m, p, now, l, w', o, a);
    } else if role == o {
      assert w.Holds(k, o) && k == m;
      assert SeesTruly(w, m, r);
      SeerPlaces(w, role, m, p, now, l, w', r, a);
    } else {
      OnlookerPlaces(w, role, m, p, now, l, w', k, r, o, a);
    }
  }

  lemma MoveNamed(w: World, role: int64, m: int64, p: Vec, now: int, l: Lists3, w': World, o: int64, name: string)
    requires Formed(w) && NamedAs(w, o, name)
    requires w.Holds(m, role) && role in w.scenes[m].shown && MoveWith(w, role, m, p, now, l, w')
    ensures NamedAs(w', o, name)
  {
    hide CellOf, Meet, Part, Broadcast, Entering, Neighbours, Lists;
    forall k: int64 | w'.Holds(k, o) ensures Named(w'.scenes[k], o, name) {
      assert w.Holds(k, o);
    }
  }

  lemma AllMovedPlaces(w: World, role: int64, m: int64, p: Vec, now: int, l: Lists3, w': World, r: int64, o: int64,
                       a: Word)
    requires Sound(w) && NamedAs(w, o, a.name) && PlacesIfSeen(w, r, o, a)
    requires w.Holds(m, role) && role in w.scenes[m].shown && MoveWith(w, role, m, p, now, l, w')
    ensures w'.dims == w.dims && PlacesIfSeen(w', r, o, MovedWord(w, role, r, o, a))
  {
    AfterMove(w, role, m, p, now, l, w');
    hide Places, Held, MoveWith, MovedWord, Neighbours, Lists, WellFormed, Apart, NamedAs;
    forall k: int64 | w'.Live(r) && w'.Holds(k, r) && o in Neighbours(w'.dims, w'.scenes[k].pos, r)
      ensures Places(w', k, r, o, MovedWord(w, role, r, o, a))
    {
      assert w.Live(r) && w.Holds(k, r);
      MovedPlaces(w, role, m, p, now, l, w', k, r, o, a);
    }
  }

  lemma MovePlaces(w: World, ev: Event, w': World, r: int64, o: int64, a: Word)
    requires Sound(w) && ev.Move? && Step(w, ev, w') && NamedAs(w, o, a.name) && PlacesIfSeen(w, r, o, a)
    ensures w'.dims == w.dims && PlacesIfSeen(w', r, o, WordAfter(w, ev, r, o, a))
    ensures NamedAs(w', o, a.name) && WordAfter(w, ev, r, o, a).name == a.name
  {
    var role, p := ev.role, Vec(ClampCoord(ev.x), ClampCoord(ev.y));
    assert w.dims.Ok() && Formed(w);
    hide PlacesIfSeen, ClampCoord, MoveWith, Formed, Sound, Sees, NamedAs;
    if (exists m :: w.Holds(m, role)) && Permits(w.lastMove, w.interval, role, ev.now) {
      var m, l :| w.Holds(m, role) && role in w.scenes[m].shown && MoveWith(w, role, m, p, ev.now, l, w');
      AllMovedPlaces(w, role, m, p, ev.now, l, w', r, o, a);
      MoveNamed(w, role, m, p, ev.now, l, w', o, a.name);
    }
  }

  /** What an entry makes of what the client of r holds of o. */
  lemma EnterHeld(w: World, conn: int64, role: int64, m: int64, name: string, p: Vec, others: seq<int64>, w': World,
                  r: int64, o: int64)
    requires Formed(w) && Separate(w) && Bindable(w, conn, role, m) && Bound(w, conn, role).Live(r) && o != r
    requires EnterWith(Bound(w, conn, role), role, m, name, p, others, w')
    ensures o in others ==> o in w'.scenes[m].shown
    ensures var c := Bound(w, conn, role).lobby[r];
            Held(w'.net.log, c, o) ==
            if r == role && o in others then Some(w'.scenes[m].shown[o])
            else if o == role && r in others then Some(Info(role, name, p)) else Held(w.net.log, c, o)
  {
    var wb, c := Bound(w, conn, role), Bound(w, conn, role).lobby[r];
    var s := Added(w.dims, w.SceneOf(m), role, name, p);
    if m !in w.scenes {
      forall o: int64 ensures WellShown(w.dims, EMPTY_SCENE, o) {}
    }
    KeepsForm(w.dims, w.SceneOf(m), role, name, p);
    assert forall i | 0 <= i < |others| :: WellShown(w.dims, s, others[i]);
    BoundOnlyFor(w, conn, role, m, r);
    hide Held, CellOf, Greet, OnlyFor, Apart;
    HeldGreet(w.net, wb.lobby, s, others, Info(role, name, p), c, r, o);
  }

  lemma EnterPlaces(w: World, conn: int64, role: int64, m: int64, name: string, p: Vec, others: seq<int64>, w': World,
                    k: int64, r: int64, o: int64, a: Word)
    requires Sound(w) && NamedAs(w, o, a.name) && PlacesIfSeen(w, r, o, a) && Bindable(w, conn, role, m)
    requires EnterWith(Bound(w, conn, role), role, m, name, p, others, w')
    requires w'.Live(r) && w'.Holds(k, r) && o in Neighbours(w.dims, w'.scenes[k].pos, r)
    ensures Places(w', k, r, o, EnteredWord(w, role, name, r, o, a))
  {
    EnterFrame(w, conn, role, m, name, p, others, w');
    EnterHeld(w, conn, role, m, name, p, others, w', r, o);
    assert WellShown(w'.dims, w'.scenes[k], o);
    hide Held, CellOf, Greet, Apart;
    if role == r {
      assert k == m && o in others && w.Holds(m, o);
      assert ByManager(w, o) <==> o in w.scenes[m].shared;
    } else if role == o {
      assert k == m by { assert w'.Holds(k, o) && w'.Holds(m, o); }
      Mutual(w.dims, w'.scenes[m].pos, r, o);
      assert r in others;
    } else {
      assert w.Live(r) && w.Holds(k, r) && o in Neighbours(w.dims, w.scenes[k].pos, r);
      assert Places(w, k, r, o, a);
    }
  }

  /** The name is the one that o enters under, if it is o who does. */
  lemma EnterNamed(w: World, conn: int64, role: int64, m: int64, name: string, p: Vec, others: seq<int64>, w': World,
                   o: int64, before: string)
    requires Sound(w) && NamedAs(w, o, before) && Bindable(w, conn, role, m)
    requires EnterWith(Bound(w, conn, role), role, m, name, p, others, w')
    ensures NamedAs(w', o, if role == o then name else before)
  {
    hide CellOf, Greet, Neighbours, Lists, Apart;
    forall k: int64 | w'.Holds(k, o) ensures Named(w'.scenes[k], o, if role == o then name else before) {
      if role != o || k != m { assert w.Holds(k, o); }
    }
  }

  lemma AllEnterPlaces(w: World, ev: Event, w': World, r: int64, o: int64, a: Word)
    requires Sound(w) && ev.Enter? && Step(w, ev, w') && Bindable(w, ev.conn, ev.role, ev.mapId)
    requires NamedAs(w, o, a.name) && PlacesIfSeen(w, r, o, a)
    ensures w'.dims == w.dims && PlacesIfSeen(w', r, o, WordAfter(w, ev, r, o, a))
    ensures NamedAs(w', o, WordAfter(w, ev, r, o, a).name)
  {
    assert w.dims.Ok();
    hide Places, Held, Sound, Neighbours, Bindable, NamedAs, ByManager, PlacesIfSeen;
    var c, role, m, name, p := ev.conn, ev.role, ev.mapId, ev.name, ev.pos;
    var others :| EnterWith(Bound(w, c, role), role, m, name, p, others, w');
    EnterNamed(w, c, role, m, name, p, others, w', o, a.name);
    forall k: int64 | w'.Live(r) && w'.Holds(k, r) && o in Neighbours(w'.dims, w'.scenes[k].pos, r)
      ensures Places(w', k, r, o, WordAfter(w, ev, r, o, a))
    {
      EnterPlaces(w, c, role, m, name, p, others, w', k, r, o, a);
    }
    PlacesAll(w', r, o, WordAfter(w, ev, r, o, a));
  }

  lemma PlacesAll(w: World, r: int64, o: int64, a: Word)
    requires w.dims.Ok()
    requires forall m: int64 | w.Live(r) && w.Holds(m, r) && o in Neighbours(w.dims, w.scenes[m].pos, r) ::
               Places(w, m, r, o, a)
    ensures PlacesIfSeen(w, r, o, a)
  {}

  lemma LeavePlaces(w: World, role: int64, m: int64, others: seq<int64>, w': World, k: int64, r: int64, o: int64,
                    a: Word)
    requires Sound(w) && PlacesIfSeen(w, r, o, a) && m in w.scenes && LeaveWith(w, role, m, others, w')
    requires w'.Live(r) && w'.Holds(k, r) && o in Neighbours(w.dims, w'.scenes[k].pos, r)
    ensures Places(w', k, r, o, a)
  {
    assert w.Live(r) && w.Holds(k, r) && o in Neighbours(w.dims, w.scenes[k].pos, r);
    assert Places(w, k, r, o, a);
    HeldTell(w.net, w.lobby, others, AOILeave([role]), w.lobby[r], o);
    hide Held, CellOf, Apart, Tell;
    if role == o && k != m {
      assert role !in w.scenes[m].pos by { assert w.Holds(k, o) && !w.Holds(m, o); }
      assert others == [];
    }
  }

  lemma AllLeavePlaces(w: World, ev: Event, w': World, r: int64, o: int64, a: Word)
    requires Sound(w) && ev.Leave? && Step(w, ev, w') && NamedAs(w, o, a.name) && PlacesIfSeen(w, r, o, a)
    ensures w'.dims == w.dims && PlacesIfSeen(w', r, o, a) && NamedAs(w', o, a.name)
  {
    assert w.dims.Ok();
    hide Places, Held, Sound, Neighbours, Tell;
    if ev.mapId in w.scenes {
      var others :| LeaveWith(w, ev.role, ev.mapId, others, w');
      forall k: int64 | w'.Live(r) && w'.Holds(k, r) && o in Neighbours(w'.dims, w'.scenes[k].pos, r)
        ensures Places(w', k, r, o, a)
      {
        LeavePlaces(w, ev.role, ev.mapId, others, w', k, r, o, a);
      }
      forall k: int64 | w'.Holds(k, o) ensures Named(w'.scenes[k], o, a.name) {
        assert w.Holds(k, o);
      }
    }
  }

  lemma DropPlaces(w: World, role: int64, w': World, r: int64, o: int64, a: Word)
    requires w.dims.Ok() && NamedAs(w, o, a.name) && PlacesIfSeen(w, r, o, a) && w' == w.(lobby := w.lobby - {role})
    ensures PlacesIfSeen(w', r, o, a) && NamedAs(w', o, a.name)
  {
    hide Held;
    forall k: int64 | w'.Live(r) && w'.Holds(k, r) && o in Neighbours(w'.dims, w'.scenes[k].pos, r)
      ensures Places(w', k, r, o, a)
    {
      assert w.Live(r) && w.Holds(k, r) && Places(w, k, r, o, a);
    }
    forall k: int64 | w'.Holds(k, o) ensures Named(w'.scenes[k], o, a.name) {
      assert w.Holds(k, o);
    }
  }

  lemma StepPlaces(w: World, ev: Event, w': World, r: int64, o: int64, a: Word)
    requires Sound(w) && Step(w, ev, w') && Admissible(w, ev) && NamedAs(w, o, a.name) && PlacesIfSeen(w, r, o, a)
    ensures w'.dims == w.dims && NamedAs(w', o, WordAfter(w, ev, r, o, a).name)
    ensures PlacesIfSeen(w', r, o, WordAfter(w, ev, r, o, a))
  {
    assert w.dims.Ok();
    hide Sound, Bindable, Lossless, MoveStep, EnterStep, LeaveStep, PlacesIfSeen, NamedAs, MovedWord, EnteredWord;
    match ev
    case Enter(_, _, _, _, _) => AllEnterPlaces(w, ev, w', r, o, a);
    case Leave(_, _) => AllLeavePlaces(w, ev, w', r, o, a);
    case Move(_, _, _, _) => MovePlaces(w, ev, w', r, o, a);
    case Drop(role) => DropPlaces(w, role, w', r, o, a);
  }

  // ---------------------------------------------------------------------
  // Runs
  // ---------------------------------------------------------------------

  /** Where, after n steps, what the client of r holds of o comes from. */
  ghost function WordFor(worlds: seq<World>, evs: seq<Event>, n: nat, r: int64, o: int64): Word
    requires Run(worlds, evs) && n < |worlds|
  {
    if n == 0 then Word(false, false, "")
    else WordAfter(worlds[n - 1], evs[n - 1], r, o, WordFor(worlds, evs, n - 1, r, o))
  }

  /** The name o last entered under. */
  ghost function NameOf(evs: seq<Event>, n: nat, o: int64): string
    requires n <= |evs|
  {
    if n == 0 then ""
    else if evs[n - 1].Enter? && evs[n - 1].role == o then evs[n - 1].name
    else NameOf(evs, n - 1, o)
  }

  lemma {:induction false} WordHasName(worlds: seq<World>, evs: seq<Event>, n: nat, r: int64, o: int64)
    requires Run(worlds, evs) && n < |worlds|
    ensures WordFor(worlds, evs, n, r, o).name == NameOf(evs, n, o)
  {
    hide Step;
    if n == 0 {
    } else {
      WordHasName(worlds, evs, n - 1, r, o);
    }
  }

  lemma {:induction false} RunPlaces(worlds: seq<World>, evs: seq<Event>, n: nat, r: int64, o: int64)
    requires Run(worlds, evs) && n < |worlds|
    requires forall i | 0 <= i < n :: Admissible(worlds[i], evs[i])
    ensures PlacesIfSeen(worlds[n], r, o, WordFor(worlds, evs, n, r, o))
    ensures NamedAs(worlds[n], o, WordFor(worlds, evs, n, r, o).name)
  {
    hide Places, Held, Sound, Step, WordAfter, Admissible, PlacesIfSeen, NamedAs;
    if n == 0 {
      StartPlaces(worlds[0], r, o, WordFor(worlds, evs, 0, r, o));
    } else {
      RunPlaces(worlds, evs, n - 1, r, o);
      ViewsAreTrue(worlds, evs, n - 1);
      StepPlaces(worlds[n - 1], evs[n - 1], worlds[n], r, o, WordFor(worlds, evs, n - 1, r, o));
    }
  }

  lemma StartPlaces(w: World, r: int64, o: int64, a: Word)
    requires Initial(w)
    ensures PlacesIfSeen(w, r, o, a) && NamedAs(w, o, a.name)
  {}

  /**
   * Over every run, each client has every player in its view where that player is, or where the grid reports it, so
   * in its cell; and by its name or none. The place is the player's exactly if the client last heard of it by the
   * player's own move or entry, or the grid's report is right; and the name exactly if the client was told it since
   * the player came into its view, or the player has none.
   */
  lemma HeldIff(worlds: seq<World>, evs: seq<Event>, n: nat, m: int64, r: int64, o: int64)
    requires Run(worlds, evs) && n < |worlds| && (forall i | 0 <= i < n :: Admissible(worlds[i], evs[i]))
    requires worlds[n].Live(r) && worlds[n].Holds(m, r) && o in worlds[n].View(r)
    ensures worlds[n].Holds(m, o) && o in worlds[n].scenes[m].shown
    ensures Held(worlds[n].net.log, worlds[n].lobby[r], o).Some?
    ensures var w, a, name := worlds[n], WordFor(worlds, evs, n, r, o), NameOf(evs, n, o);
            var held, s := Held(w.net.log, w.lobby[r], o).value, w.scenes[m];
            && held.id == o && CellOf(w.dims, held.pos) == CellOf(w.dims, s.pos[o])
            && (held.pos == s.pos[o] <==> a.own || s.shown[o].pos == s.pos[o])
            && (!a.own ==> held.pos == s.shown[o].pos)
            && (held.name == name <==> a.known || name == "") && (held.name == name || held.name == "")
  {
    var w := worlds[n];
    ViewsAreTrue(worlds, evs, n);
    RunPlaces(worlds, evs, n, r, o);
    WordHasName(worlds, evs, n, r, o);
    assert SeesTruly(w, m, r);
    assert WellShown(w.dims, w.scenes[m], o);
    hide Held, CellOf, WordFor, NameOf, Apart, Run;
    assert Places(w, m, r, o, WordFor(worlds, evs, n, r, o));
  }

  /**
   * After an entry everyone who sees the newcomer holds exactly its name and position, and the newcomer holds of
   * everyone it sees exactly what the grid reports.
   */
  lemma EntryHeld(worlds: seq<World>, evs: seq<Event>, n: nat, m: int64, r: int64, o: int64)
    requires Run(worlds, evs) && n < |evs| && (forall i | 0 <= i <= n :: Admissible(worlds[i], evs[i]))
    requires evs[n].Enter? && (evs[n].role == o || evs[n].role == r)
    requires worlds[n + 1].Live(r) && worlds[n + 1].Holds(m, r) && o in worlds[n + 1].View(r)
    ensures worlds[n + 1].Holds(m, o) && o in worlds[n + 1].scenes[m].shown
    ensures var w := worlds[n + 1];
            Held(w.net.log, w.lobby[r], o) ==
            Some(if evs[n].role == o then Info(o, evs[n].name, evs[n].pos) else w.scenes[m].shown[o])
  {
    var w, ev := worlds[n + 1], evs[n];
    ViewsAreTrue(worlds, evs, n);
    ViewsAreTrue(worlds, evs, n + 1);
    assert SeesTruly(w, m, r);
    EntryStepHeld(worlds[n], ev, w, m, r, o);
  }

  lemma EntryStepHeld(w: World, ev: Event, w': World, m: int64, r: int64, o: int64)
    requires Sound(w) && Sound(w') && ev.Enter? && Step(w, ev, w') && Admissible(w, ev)
    requires ev.role == o || ev.role == r
    requires w'.Live(r) && w'.Holds(m, r) && o in Neighbours(w'.dims, w'.scenes[m].pos, r)
    ensures w'.Holds(m, o) && o in w'.scenes[m].shown
    ensures Held(w'.net.log, w'.lobby[r], o) ==
            Some(if ev.role == o then Info(o, ev.name, ev.pos) else w'.scenes[m].shown[o])
  {
    var c, role, k, name, p := ev.conn, ev.role, ev.mapId, ev.name, ev.pos;
    var others :| EnterWith(Bound(w, c, role), role, k, name, p, others, w');
    EnterFrame(w, c, role, k, name, p, others, w');
    EnterHeld(w, c, role, k, name, p, others, w', r, o);
    assert WellShown(w'.dims, w'.scenes[m], o);
    hide Held, CellOf, Greet, Apart, Lossless, Exact;
    assert w'.Holds(k, role) && w'.Holds(m, role) && k == m;
    Mutual(w.dims, w'.scenes[m].pos, r, o);
  }

  // ---------------------------------------------------------------------
  // A run that leaves a player misplaced
  // ---------------------------------------------------------------------

  const ASIDE := Vec(150.0, 50.0)
  const FURTHER := Vec(160.0, 50.0)

  /** The world after a move that nobody is told of. */
  function Moving(w: World, p: Vec, now: int): World
    requires w.dims.Ok() && w.Holds(1, 1) && 1 in w.scenes[1].shown
  {
    w.(scenes := w.scenes[1 := Moved(w.dims, w.scenes[1], 1, p)], net := w.net.(ticks := w.net.ticks + 1),
       lastMove := w.lastMove[1 := now], saved := w.saved + [Saved(1, p, 1)])
  }

  /** Nobody is, if role 1 is alone in the scene and moves to a cell that is near. */
  lemma MovingAlone(w: World, p: Vec, now: int)
    requires w.dims.Ok() && w.Holds(1, 1) && w.scenes[1].pos.Keys == {1} && 1 in w.scenes[1].shown
    requires Near(CellOf(w.dims, w.scenes[1].pos[1]), CellOf(w.dims, p))
    ensures MoveWith(w, 1, 1, p, now, Lists3([], [], []), Moving(w, p, now))
  {
    var s, from, to := Moved(w.dims, w.scenes[1], 1, p), CellOf(w.dims, w.scenes[1].pos[1]), CellOf(w.dims, p);
    assert s.pos == w.scenes[1].pos[1 := p];
    hide CellOf, Moved;
    assert Entering(w.dims, s.pos, from, to) == {} && Entering(w.dims, s.pos, to, from) == {};
    assert Neighbours(w.dims, s.pos, 1) == {};
  }

  lemma MoveAlone(w: World, p: Vec, now: int)
    requires Sound(w) && w.Holds(1, 1) && w.scenes[1].pos.Keys == {1} && 1 in w.scenes[1].shown
    requires 0.0 <= p.x <= 1000.0 && 0.0 <= p.y <= 1000.0 && Permits(w.lastMove, w.interval, 1, now)
    requires Near(CellOf(w.dims, w.scenes[1].pos[1]), CellOf(w.dims, p))
    ensures Step(w, Move(1, p.x, p.y, now), Moving(w, p, now)) && Sound(Moving(w, p, now))
  {
    MovingAlone(w, p, now);
    hide Sound, MoveWith, CellOf, Moving;
    assert Vec(ClampCoord(p.x), ClampCoord(p.y)) == p;
    StepKeeps(w, Move(1, p.x, p.y, now), Moving(w, p, now));
  }

  /**
   * A run in which every view is true, but a client has a player where it is not: the player steps into another
   * cell, steps on inside it, and then the client comes in and is shown it at its first step.
   */
  lemma MisplacedExample() returns (worlds: seq<World>)
    ensures Run(worlds, [Enter(11, 1, 1, "", R.NEAR), Move(1, 150.0, 50.0, 0), Move(1, 160.0, 50.0, 50_000_000),
                         Enter(12, 2, 1, "", R.NEAR)])
    ensures Sound(worlds[4]) && worlds[4].Holds(1, 1) && worlds[4].Live(2)
    ensures worlds[4].scenes[1].pos[1] == FURTHER
    ensures Held(worlds[4].net.log, worlds[4].lobby[2], 1) == Some(Info(1, "", ASIDE))
  {
    hide Step, Sound, Held;
    R.Corners();
    assert 150.0 / 100.0 == 1.5 && 160.0 / 100.0 == 1.6;
    var w1 := R.FirstEntry();
    ReportOf(w1);
    MoveAlone(w1, ASIDE, 0);
    var w2 := Moving(w1, ASIDE, 0);
    MoveAlone(w2, FURTHER, 50_000_000);
    var w3 := Moving(w2, FURTHER, 50_000_000);
    var w4 := ShownAside(w3);
    worlds := [R.AT_START, w1, w2, w3, w4];
  }

  lemma ReportOf(w: World)
    requires Sound(w) && w.Holds(1, 1)
    ensures 1 in w.scenes[1].shown
  {
    assert WellShown(w.dims, w.scenes[1], 1);
  }

  /** The client that comes in. */
  lemma ShownAside(w: World) returns (w': World)
    requires Sound(w) && w.dims == R.AT_START.dims && w.scenes.Keys == {1} && w.scenes[1].pos == map[1 := FURTHER]
    requires 1 in w.scenes[1].shown && w.scenes[1].shown[1] == Info(1, "", ASIDE)
    requires w.lobby == w.roleConns == map[1 := 11] && w.net.log == []
    ensures Step(w, Enter(12, 2, 1, "", R.NEAR), w') && Sound(w') && w'.dims == w.dims && w'.Live(2) && w'.Holds(1, 1)
    ensures w'.scenes[1].pos[1] == FURTHER
    ensures Held(w'.net.log, w'.lobby[2], 1) == Some(Info(1, "", ASIDE))
  {
    assert Formed(w) && Separate(w);
    hide Sound, Held, Formed, Separate;
    R.Corners();
    assert 160.0 / 100.0 == 1.6;
    assert NewView(w, 2, 1, R.NEAR) == {1};
    assert Bindable(w, 12, 2, 1);
    R.Newcomer(w, 12, 2, 1, R.NEAR, [1]);
    w' := R.After(Bound(w, 12, 2), 2, 1, "", R.NEAR, [1]);
    EnterHeld(w, 12, 2, 1, "", R.NEAR, [1], w', 2, 1);
  }
}
