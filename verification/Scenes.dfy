/** One map: the entity manager, the grid that indexes it, and the operations that keep them in step. */
module Scenes {
  import opened GoTypes
  import opened Geometry
  import opened Grid
  import opened SceneModel

  class EntityManager {
    var entities: map<int64, Entity>

    constructor ()
      ensures entities == map[]
    {
      entities := map[];
    }

    method Add(e: Entity)
      modifies this
      ensures entities == old(entities)[e.id := e]
    {
      entities := entities[e.id := e];
    }

    method Remove(id: int64)
      modifies this
      ensures entities == old(entities) - {id}
    {
      entities := entities - {id};
    }

    function Get(id: int64): (e: Option<Entity>)
      reads this
      ensures e.Some? <==> id in entities
      ensures e.Some? ==> e.value == entities[id]
    {
      Find(entities, id)
    }
  }

  // ---------------------------------------------------------------------
  // The index invariant, on snapshots of the objects
  // ---------------------------------------------------------------------

  datatype Looks = Looks(name: string, pos: Vec)

  /** Where an id is filed, and the object it is filed as. */
  datatype Filing = Filing(cell: Cell, entity: Entity)

  /**
   * The ghost state of a scene: all its objects, the entities made for it, a copy of their mutable fields,
   * the filings of the grid by id, and the scene's value.
   */
  datatype Model = Model(
    all: set<object>, objects: set<Entity>, mem: map<Entity, Looks>, place: map<int64, Filing>, state: SceneState)

  /** The table holds these filings and nothing else: in particular no id is in two cells. */
  ghost predicate Spread(t: Table, place: map<int64, Filing>) {
    && (forall c, id: int64 | Holds(t, c, id) :: id in place && place[id] == Filing(c, t[c][id]))
    && (forall id | id in place :: Holds(t, place[id].cell, id))
  }

  lemma SpreadFiled(t: Table, place: map<int64, Filing>, c: Cell, e: Entity)
    requires Spread(t, place) && c in t && (e.id in place ==> place[e.id].cell == c)
    ensures Spread(Filed(t, c, e), place[e.id := Filing(c, e)])
  {
    var t' := Filed(t, c, e);
    forall d, id: int64 | Holds(t', d, id)
      ensures id in place[e.id := Filing(c, e)] && place[e.id := Filing(c, e)][id] == Filing(d, t'[d][id])
    {
      if !(d == c && id == e.id) { assert Holds(t, d, id); }
    }
    forall id | id in place ensures Holds(t', place[id].cell, id) { assert Holds(t, place[id].cell, id); }
  }

  lemma SpreadUnfiled(t: Table, place: map<int64, Filing>, c: Cell, id: int64)
    requires Spread(t, place) && c in t && id in place && place[id].cell == c
    ensures Spread(Unfiled(t, c, id), place - {id})
  {
    var t' := Unfiled(t, c, id);
    forall d, o: int64 | Holds(t', d, o) ensures o in place - {id} && place[o] == Filing(d, t'[d][o]) {
      assert Holds(t, d, o);
    }
    forall o | o in place - {id} ensures Holds(t', place[o].cell, o) { assert Holds(t, place[o].cell, o); }
  }

  /**
   * The index invariant for one id. A managed player is filed, as the manager's object or as another
   * with the same id, in the cell of the manager's position, which is also the cell of the filed
   * object's own position; nobody else is filed. The scene's value is read off the same objects.
   */
  ghost predicate Fits(d: Dims, ents: map<int64, Entity>, m: Model, id: int64)
    requires d.Ok()
  {
    var s := m.state;
    && (id in s.pos <==> id in ents) && (id in s.shown <==> id in ents) && (id in m.place <==> id in ents)
    && (id in s.shared ==> id in ents)
    && (id in ents ==>
          var e, f := ents[id], m.place[id];
          && e.id == id && e in m.mem
          && f.entity.id == id && f.entity in m.mem
          && s.pos[id] == m.mem[e].pos
          && s.shown[id] == Info(id, m.mem[f.entity].name, m.mem[f.entity].pos)
          && f.cell == CellOf(d, s.pos[id]) == CellOf(d, s.shown[id].pos)
          && (id in s.shared <==> f.entity == e))
  }

  ghost predicate Consistent(d: Dims, ents: map<int64, Entity>, t: Table, m: Model)
    requires d.Ok()
  {
    && Spread(t, m.place)
    && (forall id: int64 :: Fits(d, ents, m, id))
    && (forall e | e in m.mem :: e in m.objects) && (forall e | e in m.objects :: e in m.mem)
    && (forall e | e in m.objects :: e in m.all)
  }

  /** A new object joins, shared by manager and grid. */
  ghost function Joined(d: Dims, m: Model, e: Entity, name: string, p: Vec): Model
    requires d.Ok()
  {
    Model(m.all + {e}, m.objects + {e}, m.mem[e := Looks(name, p)], m.place[e.id := Filing(CellOf(d, p), e)],
          Added(d, m.state, e.id, name, p))
  }

  lemma JoinedFits(d: Dims, ents: map<int64, Entity>, t: Table, m: Model, e: Entity, name: string, p: Vec)
    requires d.Ok() && Consistent(d, ents, t, m) && e !in m.objects && e.id !in ents && CellOf(d, p) in t
    ensures Consistent(d, ents[e.id := e], Filed(t, CellOf(d, p), e), Joined(d, m, e, name, p))
  {
    var ents', m' := ents[e.id := e], Joined(d, m, e, name, p);
    assert Fits(d, ents, m, e.id);
    SpreadFiled(t, m.place, CellOf(d, p), e);
    forall id: int64 ensures Fits(d, ents', m', id) {
      assert Fits(d, ents, m, id);
    }
  }

  /** The manager's object is renamed and put elsewhere; across cells the grid files it again. */
  ghost function Rejoined(d: Dims, m: Model, e: Entity, name: string, p: Vec): Model
    requires d.Ok() && e.id in m.place
  {
    var c := CellOf(d, p);
    Model(m.all, m.objects, m.mem[e := Looks(name, p)],
          if m.place[e.id].cell == c then m.place else m.place[e.id := Filing(c, e)],
          Added(d, m.state, e.id, name, p))
  }

  lemma RejoinedFits(d: Dims, ents: map<int64, Entity>, t: Table, m: Model, e: Entity, name: string, p: Vec, from: Cell)
    requires d.Ok() && Consistent(d, ents, t, m) && e.id in ents && ents[e.id] == e && CellOf(d, p) in t
    requires e in m.mem && from == CellOf(d, m.mem[e].pos) && from in t
    ensures e.id in m.place && m.place[e.id].cell == from
    ensures Consistent(d, ents, if from == CellOf(d, p) then t else Filed(Unfiled(t, from, e.id), CellOf(d, p), e),
                       Rejoined(d, m, e, name, p))
  {
    assert Fits(d, ents, m, e.id);
    var m', c := Rejoined(d, m, e, name, p), CellOf(d, p);
    if from != c {
      SpreadUnfiled(t, m.place, from, e.id);
      SpreadFiled(Unfiled(t, from, e.id), m.place - {e.id}, c, e);
      assert (m.place - {e.id})[e.id := Filing(c, e)] == m'.place;
    }
    forall id: int64 ensures Fits(d, ents, m', id) {
      assert Fits(d, ents, m, id);
    }
  }

  /** The manager's object moves; across cells the grid files a new copy. */
  ghost function Stepped(d: Dims, m: Model, e: Entity, p: Vec, copy: Entity?): Model
    requires d.Ok() && e in m.mem && e.id in m.state.pos && e.id in m.state.shown
  {
    var moved := m.mem[e := Looks(m.mem[e].name, p)];
    if copy == null then
      Model(m.all, m.objects, moved, m.place, Moved(d, m.state, e.id, p))
    else
      Model(m.all + {copy}, m.objects + {copy}, moved[copy := Looks("", p)],
            m.place[e.id := Filing(CellOf(d, p), copy)], Moved(d, m.state, e.id, p))
  }

  lemma SteppedFits(d: Dims, ents: map<int64, Entity>, t: Table, m: Model, e: Entity, p: Vec, copy: Entity?, from: Cell)
    requires d.Ok() && Consistent(d, ents, t, m) && e.id in ents && ents[e.id] == e && CellOf(d, p) in t
    requires e in m.mem && e.id in m.state.pos && e.id in m.state.shown
    requires from == CellOf(d, m.mem[e].pos) && from in t
    requires copy == null <==> from == CellOf(d, p)
    requires copy != null ==> copy !in m.objects && copy.id == e.id
    ensures Consistent(d, ents, if copy == null then t else Filed(Unfiled(t, from, e.id), CellOf(d, p), copy),
                       Stepped(d, m, e, p, copy))
  {
    assert Fits(d, ents, m, e.id);
    var m', c := Stepped(d, m, e, p, copy), CellOf(d, p);
    if copy != null {
      SpreadUnfiled(t, m.place, from, e.id);
      SpreadFiled(Unfiled(t, from, e.id), m.place - {e.id}, c, copy);
      assert (m.place - {e.id})[e.id := Filing(c, copy)] == m'.place;
    }
    forall id: int64 ensures Fits(d, ents, m', id) {
      assert Fits(d, ents, m, id);
    }
  }

  ghost function Parted(m: Model, id: int64): Model {
    m.(place := m.place - {id}, state := Removed(m.state, id))
  }

  lemma PartedFits(d: Dims, ents: map<int64, Entity>, t: Table, m: Model, id: int64, from: Cell)
    requires d.Ok() && Consistent(d, ents, t, m) && id in ents && from in t
    requires ents[id] in m.mem && from == CellOf(d, m.mem[ents[id]].pos)
    ensures Consistent(d, ents - {id}, Unfiled(t, from, id), Parted(m, id))
  {
    assert Fits(d, ents, m, id);
    SpreadUnfiled(t, m.place, from, id);
    var ents', m' := ents - {id}, Parted(m, id);
    forall o: int64 ensures Fits(d, ents', m', o) {
      assert Fits(d, ents, m, o);
    }
  }

  // ---------------------------------------------------------------------
  // What the grid's answers mean for the scene
  // ---------------------------------------------------------------------

  /** Being filed in the block around c is being in it by the manager's position. */
  lemma SeenIsAround(d: Dims, ents: map<int64, Entity>, t: Table, m: Model, c: Cell)
    requires d.Ok() && Consistent(d, ents, t, m)
    ensures SeenIds(t, c) == Around(d, m.state.pos, c)
  {
    var seen, around := SeenIds(t, c), Around(d, m.state.pos, c);
    forall id: int64 ensures id in seen <==> id in around {
      assert Fits(d, ents, m, id);
      if id in seen {
        var b :| b in t && id in t[b] && Near(b, c);
        assert Holds(t, b, id);
      }
      if id in around {
        assert Holds(t, m.place[id].cell, id);
      }
    }
  }

  /** A query lists the players around its centre, each once, as the objects the grid files for them. */
  lemma CollectedPlayers(d: Dims, ents: map<int64, Entity>, t: Table, m: Model, es: seq<Entity>, c: Cell,
                         skip: set<int64>)
    requires d.Ok() && Consistent(d, ents, t, m) && Collects(t, es, Block(t, c), skip)
    ensures Lists(IdsOf(es), Around(d, m.state.pos, c) - skip)
    ensures forall e | e in es :: e.id in m.place && e == m.place[e.id].entity
  {
    SeenIsAround(d, ents, t, m, c);
    forall i | 0 <= i < |es|
      ensures es[i].id in SeenIds(t, c) && es[i].id in m.place && es[i] == m.place[es[i].id].entity
    {
      assert FoundIn(t, es[i], Block(t, c));
    }
    forall c1, c2, id: int64 | Holds(t, c1, id) && Holds(t, c2, id) ensures c1 == c2 {}
    forall id: int64 | id in SeenIds(t, c) - skip ensures id in IdsOf(es) {
      var b :| b in t && id in t[b] && Near(b, c);
      assert Holds(t, b, id) && t[b][id] in es;
      assert m.place[id].entity == t[b][id];
      assert Fits(d, ents, m, id);
      var i :| 0 <= i < |es| && es[i] == t[b][id];
      assert IdsOf(es)[i] == id;
    }
  }

  lemma KeysFit(d: Dims, ents: map<int64, Entity>, t: Table, m: Model)
    requires d.Ok() && Consistent(d, ents, t, m)
    ensures KeysAgree(t)
  {
    forall c, id: int64 | Holds(t, c, id) ensures t[c][id].id == id {
      assert Fits(d, ents, m, id);
    }
  }

  /** Leaves one id out of a list of entities. */
  method Others(all: seq<Entity>, id: int64) returns (others: seq<Entity>)
    requires Distinct(IdsOf(all))
    ensures forall e | e in others :: e in all
    ensures forall s: set<int64> | Lists(IdsOf(all), s) :: Lists(IdsOf(others), s - {id})
  {
    others := [];
    for k := 0 to |all|
      invariant forall i | 0 <= i < |others| :: others[i] in all[..k] && others[i].id != id
      invariant forall i | 0 <= i < k && all[i].id != id :: all[i].id in IdsOf(others)
      invariant Distinct(IdsOf(others))
    {
      if all[k].id != id {
        assert forall i | 0 <= i < k :: IdsOf(all)[i] != IdsOf(all)[k];
        assert IdsOf(others + [all[k]]) == IdsOf(others) + [all[k].id];
        others := others + [all[k]];
      }
    }
  }

  /** es are players as s shows them. */
  ghost predicate AsShown(es: seq<Entity>, s: SceneState)
    reads es
  {
    forall i | 0 <= i < |es| :: es[i].id in s.shown && s.shown[es[i].id] == Info(es[i].id, es[i].name, es[i].pos)
  }

  /** es are objects of the scene, and players as the scene shows them. */
  ghost predicate Reports(es: seq<Entity>, m: Model)
    reads m.objects
  {
    (forall i | 0 <= i < |es| :: es[i] in m.objects) && AsShown(es, m.state)
  }

  class Scene {
    const id: int64
    const aoi: GridAOI
    const em: EntityManager
    ghost var m: Model

    ghost predicate Valid()
      reads this, m.all
    {
      && this in m.all && em in m.all && aoi in m.all && aoi.cells in m.all
      && aoi.Valid()
      && Consistent(aoi.Shape(), em.entities, aoi.table, m)
      && Mirrored()
    }

    /** The copy of the objects' fields is up to date. */
    ghost predicate Mirrored()
      reads this, m.objects
    {
      forall e | e in m.objects :: e in m.mem && m.mem[e] == Looks(e.name, e.pos)
    }

    constructor (id: int64, mapWidth: real, mapHeight: real, gridSize: real)
      requires gridSize >= 1.0
      requires CellCount(mapWidth, gridSize) >= 1 && CellCount(mapHeight, gridSize) >= 1
      ensures Valid() && m.state == EMPTY_SCENE
      ensures this.id == id && fresh(em) && fresh(m.all)
      ensures aoi.Shape() == Dims(CellCount(mapWidth, gridSize), CellCount(mapHeight, gridSize), gridSize)
    {
      this.id := id;
      aoi := new GridAOI(mapWidth, mapHeight, gridSize);
      em := new EntityManager();
      new;
      m := Model({this, em, aoi, aoi.cells}, {}, map[], map[], EMPTY_SCENE);
    }

    /** Whether the player is in the scene. */
    predicate Has(pid: int64)
      requires Valid()
      reads this, m.all
      ensures Has(pid) <==> pid in m.state.pos
    {
      assert Fits(aoi.Shape(), em.entities, m, pid);
      em.Get(pid).Some?
    }

    lemma PlayerShown(pid: int64)
      requires Valid()
      ensures pid in m.state.pos <==> pid in m.state.shown
    {
      assert Fits(aoi.Shape(), em.entities, m, pid);
    }

    lemma Managed(pid: int64)
      requires Valid() && pid in em.entities
      ensures var e := em.entities[pid];
              && e.id == pid && e in m.objects && e in m.mem && m.mem[e] == Looks(e.name, e.pos)
              && pid in m.state.pos && m.state.pos[pid] == e.pos && pid in m.state.shown && pid in m.place
    {
      assert Fits(aoi.Shape(), em.entities, m, pid);
    }

    /** A report taken from the manager's object carries the manager's name. */
    lemma NamedByManager(pid: int64)
      requires Valid() && pid in em.entities
      ensures Named(m.state, pid, em.entities[pid].name)
    {
      assert Fits(aoi.Shape(), em.entities, m, pid);
    }

    // Each operation is a method that carries out the writes, followed by one that shows what they keep.

    method WriteNew(pid: int64, name: string, x: real, y: real) returns (e: Entity)
      requires aoi.Valid() && Mirrored()
      modifies this, em, aoi, aoi.cells
      ensures aoi.Valid() && Mirrored() && fresh(e) && e.id == pid && e.name == name && e.pos == Vec(x, y)
      ensures em.entities == old(em.entities)[pid := e]
      ensures aoi.table == Filed(old(aoi.table), CellOf(aoi.Shape(), Vec(x, y)), e)
      ensures m == Joined(aoi.Shape(), old(m), e, name, Vec(x, y))
    {
      e := new Entity(pid, name, x, y);
      em.Add(e);
      var _, _ := aoi.AddEntity(e);
      m := Joined(aoi.Shape(), m, e, name, Vec(x, y));
    }

    /** The first half of AddPlayer, for a player who is not here yet. */
    method AddNew(pid: int64, name: string, x: real, y: real)
      requires Valid() && pid !in em.entities
      modifies this, em, aoi, aoi.cells
      ensures Valid() && fresh(m.all - old(m.all)) && old(m.all) <= m.all
      ensures m.state == Added(aoi.Shape(), old(m.state), pid, name, Vec(x, y))
    {
      var e := WriteNew(pid, name, x, y);
      JoinedFits(aoi.Shape(), old(em.entities), old(aoi.table), old(m), e, name, Vec(x, y));
    }

    /** Across cells, the entry moves from the old position's cell to the new one's. */
    method Refile(e: Entity, oldX: real, oldY: real)
      requires aoi.Valid()
      modifies aoi, aoi.cells
      ensures aoi.Valid()
      ensures var from, to := CellOf(aoi.Shape(), Vec(oldX, oldY)), CellOf(aoi.Shape(), e.pos);
              aoi.table == if from == to then old(aoi.table) else Filed(Unfiled(old(aoi.table), from, e.id), to, e)
    {
      var oldCol, oldRow := aoi.PosToGrid(oldX, oldY);
      var newCol, newRow := aoi.PosToGrid(e.pos.x, e.pos.y);
      if oldCol != newCol || oldRow != newRow {
        aoi.RemoveEntity(e.id, oldX, oldY);
        var _, _ := aoi.AddEntity(e);
      }
    }

    method WriteExisting(existing: Entity, name: string, x: real, y: real)
      requires aoi.Valid() && Mirrored() && existing.id in m.place
      modifies this, aoi, aoi.cells, existing
      ensures aoi.Valid() && Mirrored() && existing.name == name && existing.pos == Vec(x, y)
      ensures var from, to := CellOf(aoi.Shape(), old(existing.pos)), CellOf(aoi.Shape(), Vec(x, y));
              aoi.table == if from == to then old(aoi.table)
                           else Filed(Unfiled(old(aoi.table), from, existing.id), to, existing)
      ensures m == Rejoined(aoi.Shape(), old(m), existing, name, Vec(x, y))
    {
      hide Added;
      var oldX, oldY := existing.pos.x, existing.pos.y;
      existing.name := name;
      existing.pos := Vec(x, y);
      Refile(existing, oldX, oldY);
      m := Rejoined(aoi.Shape(), m, existing, name, Vec(x, y));
    }

    /** The first half of AddPlayer, for a player who is here already (a reconnect). */
    method UpdateExisting(existing: Entity, name: string, x: real, y: real)
      requires Valid() && existing.id in em.entities && em.entities[existing.id] == existing
      modifies this, aoi, aoi.cells, existing
      ensures Valid() && m.all == old(m.all)
      ensures m.state == Added(aoi.Shape(), old(m.state), existing.id, name, Vec(x, y))
    {
      hide Consistent;
      Managed(existing.id);
      ghost var from := CellOf(aoi.Shape(), existing.pos);
      RejoinedFits(aoi.Shape(), em.entities, aoi.table, m, existing, name, Vec(x, y), from);
      WriteExisting(existing, name, x, y);
    }

    /** What the grid files is what the scene reports. */
    lemma FiledReport(es: seq<Entity>)
      requires Valid()
      requires forall e | e in es :: e.id in m.place && e == m.place[e.id].entity
      ensures Reports(es, m)
    {
      forall i | 0 <= i < |es|
        ensures es[i] in m.objects && es[i].id in m.state.shown
        ensures m.state.shown[es[i].id] == Info(es[i].id, es[i].name, es[i].pos)
      {
        assert es[i] in es;
        assert Fits(aoi.Shape(), em.entities, m, es[i].id);
        assert m.mem[es[i]] == Looks(es[i].name, es[i].pos);
      }
    }

    /** The players around (x, y), without id. */
    method GetVisiblePlayers(pid: int64, x: real, y: real) returns (others: seq<Entity>)
      requires Valid()
      ensures Lists(IdsOf(others), Around(aoi.Shape(), m.state.pos, CellOf(aoi.Shape(), Vec(x, y))) - {pid})
      ensures Reports(others, m)
    {
      KeysFit(aoi.Shape(), em.entities, aoi.table, m);
      var all := aoi.GetVisibleEntities(x, y);
      CollectedPlayers(aoi.Shape(), em.entities, aoi.table, m, all, CellOf(aoi.Shape(), Vec(x, y)), {});
      others := Others(all, pid);
      FiledReport(others);
    }

    method PlacePlayer(pid: int64, name: string, x: real, y: real)
      requires Valid()
      modifies m.all
      ensures Valid() && fresh(m.all - old(m.all)) && old(m.all) <= m.all
      ensures m.state == Added(aoi.Shape(), old(m.state), pid, name, Vec(x, y))
    {
      var existing := em.Get(pid);
      assert Fits(aoi.Shape(), em.entities, m, pid);
      if existing.Some? {
        UpdateExisting(existing.value, name, x, y);
      } else {
        AddNew(pid, name, x, y);
      }
    }

    /** Adds or moves a player; others are those around the player afterwards. */
    method AddPlayer(pid: int64, name: string, x: real, y: real) returns (others: seq<Entity>)
      requires Valid()
      modifies m.all
      ensures Valid() && fresh(m.all - old(m.all)) && old(m.all) <= m.all
      ensures m.state == Added(aoi.Shape(), old(m.state), pid, name, Vec(x, y))
      ensures Lists(IdsOf(others), Neighbours(aoi.Shape(), m.state.pos, pid)) && Reports(others, m)
    {
      PlacePlayer(pid, name, x, y);
      others := GetVisiblePlayers(pid, x, y);
      AroundIsNeighbours(aoi.Shape(), m.state.pos, pid);
    }

    /** Removes a player; without effect if the player is not here. */
    method RemovePlayer(pid: int64)
      requires Valid()
      modifies m.all
      ensures Valid() && m.all == old(m.all)
      ensures pid in old(m.state.pos) ==> m.state == Removed(old(m.state), pid)
      ensures pid !in old(m.state.pos) ==> m.state == old(m.state)
    {
      var e := em.Get(pid);
      assert Fits(aoi.Shape(), em.entities, m, pid);
      if e.None? {
        return;
      }
      PartedFits(aoi.Shape(), em.entities, aoi.table, m, pid, CellOf(aoi.Shape(), e.value.pos));
      WriteParted(e.value);
    }

    method WriteParted(e: Entity)
      requires aoi.Valid() && Mirrored()
      modifies this, em, aoi, aoi.cells
      ensures aoi.Valid() && Mirrored() && em.entities == old(em.entities) - {e.id}
      ensures aoi.table == Unfiled(old(aoi.table), CellOf(aoi.Shape(), e.pos), e.id)
      ensures m == Parted(old(m), e.id)
    {
      aoi.RemoveEntity(e.id, e.pos.x, e.pos.y);
      em.Remove(e.id);
      m := Parted(m, e.id);
    }

    method WriteStep(e: Entity, newX: real, newY: real)
      returns (oldCol: int, oldRow: int, newCol: int, newRow: int, ghost copy: Entity?)
      requires aoi.Valid() && Mirrored() && e in m.mem && e.id in m.state.pos && e.id in m.state.shown
      modifies this, aoi, aoi.cells, e
      ensures aoi.Valid() && Mirrored() && e.name == old(e.name) && e.pos == Vec(newX, newY)
      ensures Cell(oldCol, oldRow) == CellOf(aoi.Shape(), old(e.pos))
      ensures Cell(newCol, newRow) == CellOf(aoi.Shape(), Vec(newX, newY))
      ensures copy == null <==> Cell(oldCol, oldRow) == Cell(newCol, newRow)
      ensures copy != null ==> fresh(copy) && copy.id == e.id && copy.name == "" && copy.pos == Vec(newX, newY)
      ensures aoi.table == if copy == null then old(aoi.table)
              else Filed(Unfiled(old(aoi.table), Cell(oldCol, oldRow), e.id), Cell(newCol, newRow), copy)
      ensures m == Stepped(aoi.Shape(), old(m), e, Vec(newX, newY), copy)
    {
      hide Moved, Filed, Unfiled;
      var oldX, oldY := e.pos.x, e.pos.y;
      oldCol, oldRow, newCol, newRow, copy := aoi.MoveEntity(e.id, oldX, oldY, newX, newY);
      e.pos := Vec(newX, newY);
      m := Stepped(aoi.Shape(), m, e, Vec(newX, newY), copy);
    }

    /** The first half of MovePlayer: the move itself. */
    method Step(e: Entity, newX: real, newY: real) returns (oldCol: int, oldRow: int, newCol: int, newRow: int)
      requires Valid() && e.id in em.entities && em.entities[e.id] == e
      modifies this, aoi, aoi.cells, e
      ensures Valid() && fresh(m.all - old(m.all)) && old(m.all) <= m.all
      ensures e.id in old(m.state.pos) && e.id in old(m.state.shown)
      ensures Cell(oldCol, oldRow) == CellOf(aoi.Shape(), old(m.state).pos[e.id])
      ensures Cell(newCol, newRow) == CellOf(aoi.Shape(), Vec(newX, newY))
      ensures m.state == Moved(aoi.Shape(), old(m.state), e.id, Vec(newX, newY))
    {
      hide Consistent;
      Managed(e.id);
      ghost var copy;
      oldCol, oldRow, newCol, newRow, copy := WriteStep(e, newX, newY);
      SteppedFits(aoi.Shape(), em.entities, old(aoi.table), old(m), e, Vec(newX, newY), copy, Cell(oldCol, oldRow));
    }

    /**
     * Moves a player. Within a cell nobody enters or leaves; across cells the answer is the difference of
     * the two blocks after the move.
     */
    method MovePlayer(pid: int64, newX: real, newY: real)
      returns (aoiEnter: seq<Entity>, aoiLeave: seq<Entity>, found: bool)
      requires Valid()
      modifies m.all
      ensures Valid() && fresh(m.all - old(m.all)) && old(m.all) <= m.all
      ensures found <==> pid in old(m.state.pos)
      ensures !found ==> m.state == old(m.state) && aoiEnter == aoiLeave == []
      ensures found ==> pid in old(m.state).shown && m.state == Moved(aoi.Shape(), old(m.state), pid, Vec(newX, newY))
      ensures found ==>
        var from, to := CellOf(aoi.Shape(), old(m.state).pos[pid]), CellOf(aoi.Shape(), Vec(newX, newY));
        && Lists(IdsOf(aoiEnter), Entering(aoi.Shape(), m.state.pos, from, to))
        && Lists(IdsOf(aoiLeave), Entering(aoi.Shape(), m.state.pos, to, from))
      ensures Reports(aoiEnter, m) && Reports(aoiLeave, m)
    {
      var e := em.Get(pid);
      assert Fits(aoi.Shape(), em.entities, m, pid);
      aoiEnter, aoiLeave, found := [], [], e.Some?;
      if !found {
        return;
      }
      var oldCol, oldRow, newCol, newRow := Step(e.value, newX, newY);
      if oldCol != newCol || oldRow != newRow {
        aoiEnter, aoiLeave := Differences(oldCol, oldRow, newCol, newRow);
      }
    }

    /** The second half of MovePlayer: who came into view and who went out of it. */
    method Differences(oldCol: int, oldRow: int, newCol: int, newRow: int)
      returns (aoiEnter: seq<Entity>, aoiLeave: seq<Entity>)
      requires Valid()
      ensures var d, pos, from, to := aoi.Shape(), m.state.pos, Cell(oldCol, oldRow), Cell(newCol, newRow);
              Lists(IdsOf(aoiEnter), Entering(d, pos, from, to)) && Lists(IdsOf(aoiLeave), Entering(d, pos, to, from))
      ensures Reports(aoiEnter, m) && Reports(aoiLeave, m)
    {
      ghost var d, ents, t, from, to := aoi.Shape(), em.entities, aoi.table, Cell(oldCol, oldRow), Cell(newCol, newRow);
      KeysFit(d, ents, t, m);
      aoiEnter := aoi.GetNewNeighbors(oldCol, oldRow, newCol, newRow);
      aoiLeave := aoi.GetLostNeighbors(oldCol, oldRow, newCol, newRow);
      SeenIsAround(d, ents, t, m, from);
      SeenIsAround(d, ents, t, m, to);
      CollectedPlayers(d, ents, t, m, aoiEnter, to, SeenIds(t, from));
      CollectedPlayers(d, ents, t, m, aoiLeave, from, SeenIds(t, to));
      FiledReport(aoiEnter);
      FiledReport(aoiLeave);
    }
  }
}
