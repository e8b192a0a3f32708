/**
 * Accounts, roles, sessions and the write-back of positions: the lobby's steps over the database, the
 * position cache and the scene service, as values.
 */
module LobbyModel {
  import opened GoTypes
  import opened Geometry
  import opened RedisText

  /** A coordinate as the program holds it; None is "not a number". */
  type Coord = Option<real>

  datatype Place = Place(x: Coord, y: Coord)

  datatype Role = Role(account: int64, name: string, mapId: int64, x: real, y: real)

  datatype ConnState = Init | Auth | InScene | Closed

  /** account is the account whose session was checked when the role was bound; the program does not keep it. */
  datatype Conn = Conn(state: ConnState, session: Option<int64>, role: int64, account: Option<int64>)

  /** A position as the cache's client writes it. */
  datatype Written = Written(x: Decimal, y: Decimal)

  /** t is the text of x and y: decimal numerals without zeros at the end of the fraction. */
  ghost predicate Writes(t: Written, x: real, y: real) {
    && t.x.Ok() && t.x.Trimmed() && t.x.Shortest() != [] && t.x.Value() == x
    && t.y.Ok() && t.y.Trimmed() && t.y.Shortest() != [] && t.y.Value() == y
  }

  /** The position that is written. */
  function ValueOf(t: Written): Vec {
    Vec(t.x.Value(), t.y.Value())
  }

  /** A position in the cache: three fields of text. */
  datatype Cached = Cached(written: Written, mapId: int64) {
    function XText(): Text { written.x.Shortest() }
    function YText(): Text { written.y.Shortest() }
    function MapText(): Text { IntText(mapId) }
  }

  /**
   * last is, for a role in a scene, the numbers most recently accepted as its position; the program does
   * not keep it either. locked says that a sweep over the connections has closed one: closing takes it out of
   * the table, which waits for the lock that the sweep holds while it ranges over the table. That neither is
   * ever done, and nothing else gets that lock any more, is proved of the lock in TableLock.
   */
  datatype State = State(
    accounts: map<int64, string>, roles: map<int64, Role>, sessions: map<int64, int64>,
    cache: map<int64, Cached>, conns: map<int64, Conn>,
    scenes: map<int64, map<int64, Place>>, last: map<int64, Vec>, locked: bool)

  // ---------------------------------------------------------------------
  // Database and cache
  // ---------------------------------------------------------------------

  ghost function RolesOf(s: State, account: int64): set<int64> {
    set r | r in s.roles && s.roles[r].account == account
  }

  ghost predicate NameTaken(s: State, name: string) {
    exists r :: r in s.roles && s.roles[r].name == name
  }

  /** A cached position as it is read back. */
  datatype Found = Found(place: Place, mapId: int64)

  function GetPosition(cache: map<int64, Cached>, role: int64): Option<Found> {
    if role !in cache then None
    else Some(Found(Place(FloatOf(cache[role].XText()), FloatOf(cache[role].YText())), IntOf(cache[role].MapText())))
  }

  function SetPosition(cache: map<int64, Cached>, role: int64, t: Written, mapId: int64): map<int64, Cached> {
    cache[role := Cached(t, mapId)]
  }

  /** Positions that are not numbers are dropped without an error. */
  function UpdateRolePosition(roles: map<int64, Role>, role: int64, p: Place, mapId: int64): map<int64, Role> {
    if p.x.None? || p.y.None? || role !in roles then roles
    else roles[role := roles[role].(x := p.x.value, y := p.y.value, mapId := mapId)]
  }

  /** The rows of the database after the cached position of one role is written back. */
  function WrittenBack(roles: map<int64, Role>, cache: map<int64, Cached>, role: int64): map<int64, Role> {
    match GetPosition(cache, role)
    case None => roles
    case Some(f) => UpdateRolePosition(roles, role, f.place, f.mapId)
  }

  /** The same for a role that leaves, where a map id that is not positive stands for nothing cached. */
  function SavedRoles(roles: map<int64, Role>, cache: map<int64, Cached>, role: int64): map<int64, Role> {
    match GetPosition(cache, role)
    case None => roles
    case Some(f) => if f.mapId > 0 then UpdateRolePosition(roles, role, f.place, f.mapId) else roles
  }

  /** SyncPosition: one role after the other. */
  function WrittenBackAll(roles: map<int64, Role>, cache: map<int64, Cached>, ids: seq<int64>): map<int64, Role> {
    if ids == [] then roles
    else WrittenBack(WrittenBackAll(roles, cache, ids[..|ids| - 1]), cache, ids[|ids| - 1])
  }

  /** The write-back of one role, as a step. */
  function Synced(s: State, role: int64): State {
    s.(roles := WrittenBack(s.roles, s.cache, role))
  }

  // ---------------------------------------------------------------------
  // The scene service, as far as the lobby is concerned
  // ---------------------------------------------------------------------

  function SceneAt(scenes: map<int64, map<int64, Place>>, m: int64): map<int64, Place> {
    if m in scenes then scenes[m] else map[]
  }

  function SceneEnter(scenes: map<int64, map<int64, Place>>, role: int64, m: int64, p: Place)
    : map<int64, map<int64, Place>>
  {
    scenes[m := SceneAt(scenes, m)[role := p]]
  }

  function SceneLeave(scenes: map<int64, map<int64, Place>>, role: int64, m: int64): map<int64, map<int64, Place>> {
    if m in scenes then scenes[m := scenes[m] - {role}] else scenes
  }

  // ---------------------------------------------------------------------
  // Steps
  // ---------------------------------------------------------------------

  datatype Event =
    | Register(account: int64, username: string)
    | Connect(conn: int64)
    | Login(conn: int64, account: int64, token: int64)
    | Expire(token: int64)
    | CreateRole(token: int64, name: string, role: int64)
    | EnterScene(conn: int64, token: int64, role: int64, written: Written)
    | Reconnect(conn: int64, token: int64, role: int64)
    | Move(role: int64, mapId: int64, x: real, y: real, allowed: bool, reached: bool, written: Written)
    | Sync(role: int64)
    | Logout(conn: int64, token: int64)
    | Timeout(conn: int64)
    | Disconnect(conn: int64)

  /** The session belongs to the account that owns the role. */
  predicate Owns(s: State, token: int64, role: int64) {
    token in s.sessions && role in s.roles && s.roles[role].account == s.sessions[token]
  }

  /**
   * What the surroundings guarantee: fresh keys, a password that was checked, text that stands for the number.
   * An accepted move reaches the write of its position unless it has to look for a connection in a table that
   * is locked.
   */
  ghost predicate Fair(s: State, ev: Event) {
    match ev
    case Register(a, _) => a !in s.accounts
    case Connect(c) => c !in s.conns
    case Login(c, a, t) => c in s.conns && a in s.accounts && t !in s.sessions
    case CreateRole(_, _, r) => r > 0 && r !in s.roles
    case EnterScene(c, t, r, w) => c in s.conns && (Owns(s, t, r) ==> Writes(w, s.roles[r].x, s.roles[r].y))
    case Reconnect(c, _, _) => c in s.conns
    case Move(r, m, x, y, _, reached, w) =>
      && (!s.locked ==> reached)
      && (r in SceneAt(s.scenes, m) || forall k | k in s.scenes :: r !in s.scenes[k])
      && Writes(w, ClampCoord(x), ClampCoord(y))
    case Logout(c, _) => c in s.conns
    case Timeout(c) => c in s.conns
    case _ => true
  }

  function Bind(s: State, c: int64, role: int64, account: int64): State
    requires c in s.conns
  {
    s.(conns := s.conns[c := s.conns[c].(state := InScene, role := role, account := Some(account))])
  }

  /**
   * A role leaves by logging out or timing out: its position is saved and no longer cached; the scene asked
   * to let go is 0.
   */
  function SignedOff(s: State, role: int64): State {
    s.(roles := SavedRoles(s.roles, s.cache, role), cache := s.cache - {role}, scenes := SceneLeave(s.scenes, role, 0))
  }

  ghost function Created(s: State, t: int64, name: string, r: int64): State {
    if t !in s.sessions || NameTaken(s, name) || |RolesOf(s, s.sessions[t])| >= 3 then s
    else s.(roles := s.roles[r := Role(s.sessions[t], name, 1, 100.0, 100.0)])
  }

  /** A role goes to p in the scene of m; v are the numbers accepted as its position. */
  function Placed(s: State, r: int64, m: int64, p: Place, v: Vec): State {
    s.(scenes := SceneEnter(s.scenes, r, m, p), last := s.last[r := v])
  }

  function Entered(s: State, c: int64, t: int64, r: int64, w: Written): State
    requires c in s.conns
  {
    if !Owns(s, t, r) then s
    else
      var role := s.roles[r];
      var bound := Bind(s, c, r, s.sessions[t]).(cache := SetPosition(s.cache, r, w, role.mapId));
      Placed(bound, r, role.mapId, Place(Some(role.x), Some(role.y)), Vec(role.x, role.y))
  }

  function Reconnected(s: State, c: int64, t: int64, r: int64): State
    requires c in s.conns
  {
    if !Owns(s, t, r) then s
    else
      var role := s.roles[r];
      var bound := s.(conns := s.conns[c := Conn(InScene, Some(t), r, Some(s.sessions[t]))]);
      match GetPosition(s.cache, r)
      case Some(f) => bound.(scenes := SceneEnter(s.scenes, r, f.mapId, f.place))
      case None => Placed(bound, r, role.mapId, Place(Some(role.x), Some(role.y)), Vec(role.x, role.y))
  }

  function MovedTo(s: State, r: int64, m: int64, x: real, y: real, allowed: bool, reached: bool, w: Written): State {
    if r !in SceneAt(s.scenes, m) || !allowed then s
    else
      var cx, cy := ClampCoord(x), ClampCoord(y);
      var moved := Placed(s, r, m, Place(Some(cx), Some(cy)), Vec(cx, cy));
      if reached then moved.(cache := SetPosition(s.cache, r, w, m)) else moved
  }

  function LoggedOut(s: State, c: int64, t: int64): State
    requires c in s.conns
  {
    if t !in s.sessions then s
    else
      var off := if s.conns[c].role > 0 then SignedOff(s, s.conns[c].role) else s;
      off.(sessions := s.sessions - {t},
           conns := s.conns[c := s.conns[c].(state := Closed, session := None, role := 0)])
  }

  /** A sweep comes to a connection that is in use and overdue: it is closed, but stays in the table. */
  function TimedOut(s: State, c: int64): State
    requires c in s.conns
  {
    var conn := s.conns[c];
    if conn.state != Auth && conn.state != InScene then s
    else
      var off := if conn.role > 0 && conn.state == InScene then SignedOff(s, conn.role) else s;
      off.(sessions := if conn.session.Some? then s.sessions - {conn.session.value} else s.sessions,
           conns := s.conns[c := conn.(state := Closed)], locked := true)
  }

  /** A sweep that visits connections with overdue heartbeats in this order stops at the first, as TableLock shows. */
  function SweptInOrder(s: State, order: seq<int64>): State {
    if order == [] || order[0] !in s.conns then s else TimedOut(s, order[0])
  }

  ghost function Next(s: State, ev: Event): State
    requires Fair(s, ev)
  {
    match ev
    case Register(a, name) => if name in s.accounts.Values then s else s.(accounts := s.accounts[a := name])
    case Connect(c) => if s.locked then s else s.(conns := s.conns[c := Conn(Init, None, 0, None)])
    case Login(c, a, t) =>
      s.(sessions := s.sessions[t := a], conns := s.conns[c := s.conns[c].(state := Auth, session := Some(t))])
    case Expire(t) => s.(sessions := s.sessions - {t})
    case CreateRole(t, name, r) => Created(s, t, name, r)
    case EnterScene(c, t, r, w) => Entered(s, c, t, r, w)
    case Reconnect(c, t, r) => Reconnected(s, c, t, r)
    case Move(r, m, x, y, allowed, reached, w) => MovedTo(s, r, m, x, y, allowed, reached, w)
    case Sync(r) => Synced(s, r)
    case Logout(c, t) => LoggedOut(s, c, t)
    case Timeout(c) => if s.locked then s else TimedOut(s, c)
    case Disconnect(c) => if s.locked then s else s.(conns := s.conns - {c})
  }
}
