/** The spatial index: a matrix of cells, each a map from id to entity object. */
module Grid {
  import opened Geometry
  import opened GoTypes

  /** A player in a scene. Manager and grid may hold the same object or different ones. */
  class Entity {
    const id: int64
    var name: string
    var pos: Vec

    constructor (id: int64, name: string, x: real, y: real)
      ensures this.id == id && this.name == name && pos == Vec(x, y)
    {
      this.id, this.name, this.pos := id, name, Vec(x, y);
    }
  }

  /** The ids of a list of entities, in order. */
  function IdsOf(es: seq<Entity>): (ids: seq<int64>)
    ensures |ids| == |es| && forall i | 0 <= i < |es| :: ids[i] == es[i].id
  {
    seq(|es|, i requires 0 <= i < |es| => es[i].id)
  }

  /** What the cells hold, as a value: for each cell of the grid, its map from id to object. */
  type Table = map<Cell, map<int64, Entity>>

  /** Entities are filed under their own id. */
  ghost predicate KeysAgree(t: Table) {
    forall c, id: int64 | Holds(t, c, id) :: t[c][id].id == id
  }

  ghost predicate Holds(t: Table, c: Cell, id: int64) {
    c in t && id in t[c]
  }

  /** The ids filed in the 3x3 block around centre. */
  ghost function SeenIds(t: Table, centre: Cell): set<int64> {
    set c, id: int64 | c in t && id in t[c] && Near(c, centre) :: id
  }

  ghost predicate OneCellPerId(t: Table) {
    forall c1, c2, id: int64 :: Holds(t, c1, id) && Holds(t, c2, id) ==> c1 == c2
  }

  ghost function Filed(t: Table, c: Cell, e: Entity): Table
    requires c in t
  {
    var entities: map<int64, Entity> := t[c][e.id := e];
    t[c := entities]
  }

  ghost function Unfiled(t: Table, c: Cell, id: int64): Table
    requires c in t
  {
    t[c := t[c] - {id}]
  }

  /** es are the entries of the given cells, leaving out some ids; no id twice if no id is in two cells. */
  ghost predicate Collects(t: Table, es: seq<Entity>, cs: set<Cell>, skip: set<int64>) {
    && (forall i | 0 <= i < |es| :: es[i].id !in skip && FoundIn(t, es[i], cs))
    && (forall c, id: int64 | c in cs && Holds(t, c, id) && id !in skip :: t[c][id] in es)
    && (OneCellPerId(t) ==> Distinct(IdsOf(es)))
  }

  ghost predicate FoundIn(t: Table, e: Entity, cs: set<Cell>) {
    exists c :: c in cs && Holds(t, c, e.id) && t[c][e.id] == e
  }

  /** The cells of the 3x3 block around centre that exist. */
  ghost function Block(t: Table, centre: Cell): set<Cell> {
    set c | c in t && Near(c, centre)
  }

  lemma CollectMore(t: Table, es: seq<Entity>, added: seq<Entity>, cs: set<Cell>, c: Cell, skip: set<int64>)
    requires KeysAgree(t) && c !in cs
    requires Collects(t, es, cs, skip) && Collects(t, added, {c}, skip)
    ensures Collects(t, es + added, cs + {c}, skip)
  {
    var all := es + added;
    forall i | 0 <= i < |all| ensures all[i].id !in skip && FoundIn(t, all[i], cs + {c}) {
      if i < |es| {
        assert FoundIn(t, es[i], cs);
      } else {
        assert FoundIn(t, added[i - |es|], {c});
      }
    }
    forall d, id: int64 | d in cs + {c} && Holds(t, d, id) && id !in skip ensures t[d][id] in all {
      if d == c { assert t[d][id] in added; } else { assert t[d][id] in es; }
    }
    if OneCellPerId(t) {
      forall i, j | 0 <= i < j < |all| ensures all[i].id != all[j].id {
        if j < |es| {
          assert IdsOf(es)[i] != IdsOf(es)[j];
        } else if i >= |es| {
          assert IdsOf(added)[i - |es|] != IdsOf(added)[j - |es|];
        } else {
          assert FoundIn(t, es[i], cs) && FoundIn(t, added[j - |es|], {c});
        }
      }
    }
  }

  class GridAOI {
    const mapWidth: real
    const mapHeight: real
    const gridSize: real
    const cols: int
    const rows: int
    const cells: array2<map<int64, Entity>>
    ghost var table: Table

    function Shape(): Dims {
      Dims(cols, rows, gridSize)
    }

    /** Sizes fit, and table is what the cells hold. */
    ghost predicate Valid()
      reads this, cells
    {
      && Shape().Ok() && cells.Length0 == rows && cells.Length1 == cols
      && (forall c :: c in table <==> Shape().Contains(c))
      && (forall r, c | 0 <= r < rows && 0 <= c < cols :: table[Cell(c, r)] == cells[r, c])
    }

    constructor (mapWidth: real, mapHeight: real, gridSize: real)
      requires gridSize >= 1.0
      requires CellCount(mapWidth, gridSize) >= 1 && CellCount(mapHeight, gridSize) >= 1
      ensures Valid() && fresh(cells)
      ensures cols == CellCount(mapWidth, gridSize) && rows == CellCount(mapHeight, gridSize)
      ensures this.mapWidth == mapWidth && this.mapHeight == mapHeight && this.gridSize == gridSize
      ensures forall c | c in table :: table[c] == map[]
    {
      var nCols := Trunc(mapWidth / gridSize);
      if Trunc(mapWidth) % Trunc(gridSize) != 0 {
        nCols := nCols + 1;
      }
      var nRows := Trunc(mapHeight / gridSize);
      if Trunc(mapHeight) % Trunc(gridSize) != 0 {
        nRows := nRows + 1;
      }
      this.mapWidth, this.mapHeight, this.gridSize := mapWidth, mapHeight, gridSize;
      this.cols, this.rows := nCols, nRows;
      this.cells := new map<int64, Entity>[nRows, nCols]((r, c) => map[]);
      this.table := map r, c | 0 <= r < nRows && 0 <= c < nCols :: Cell(c, r) := map[];
    }

    /** On an axis, the strip from its line on and before the next one; outside the map the border's. */
    method PosToGrid(x: real, y: real) returns (col: int, row: int)
      requires Shape().Ok()
      ensures Cell(col, row) == CellOf(Shape(), Vec(x, y))
      ensures InStrip(x, gridSize, cols, col) && InStrip(y, gridSize, rows, row)
    {
      hide InStrip;
      IndexInStrip(x, gridSize, cols);
      IndexInStrip(y, gridSize, rows);
      col := Trunc(x / gridSize);
      row := Trunc(y / gridSize);
      if col < 0 {
        col := 0;
      }
      if col >= cols {
        col := cols - 1;
      }
      if row < 0 {
        row := 0;
      }
      if row >= rows {
        row := rows - 1;
      }
    }

    /** The cells of the 3x3 block that exist: exactly those on the grid and near (col, row), each once. */
    method GetSurroundGrids(col: int, row: int) returns (result: seq<Cell>)
      ensures forall c: Cell :: c in result <==> Shape().Contains(c) && Near(c, Cell(col, row))
      ensures forall i, j | 0 <= i < j < |result| :: result[i] != result[j]
    {
      result := [];
      for dr := -1 to 2
        invariant forall c: Cell :: c in result <==>
          Shape().Contains(c) && -1 <= c.row - row < dr && -1 <= c.col - col <= 1
        invariant forall i, j | 0 <= i < j < |result| :: result[i] != result[j]
      {
        for dc := -1 to 2
          invariant forall c: Cell :: c in result <==>
            Shape().Contains(c) && (|| (-1 <= c.row - row < dr && -1 <= c.col - col <= 1)
                                    || (c.row - row == dr && -1 <= c.col - col < dc))
          invariant forall i, j | 0 <= i < j < |result| :: result[i] != result[j]
        {
          var nr := row + dr;
          var nc := col + dc;
          if nr >= 0 && nr < rows && nc >= 0 && nc < cols {
            assert Cell(nc, nr) !in result;
            result := result + [Cell(nc, nr)];
          }
        }
      }
    }

    /** Replaces the map of one cell. */
    method SetCell(col: int, row: int, entities: map<int64, Entity>)
      requires Valid() && Shape().Contains(Cell(col, row))
      modifies this, cells
      ensures Valid() && table == old(table)[Cell(col, row) := entities]
    {
      cells[row, col] := entities;
      table := table[Cell(col, row) := entities];
    }

    /** Files e in the cell of its position. */
    method AddEntity(e: Entity) returns (col: int, row: int)
      requires Valid()
      modifies this, cells
      ensures Valid() && Cell(col, row) == CellOf(Shape(), e.pos)
      ensures table == Filed(old(table), CellOf(Shape(), e.pos), e)
    {
      col, row := PosToGrid(e.pos.x, e.pos.y);
      ghost var at := CellOf(Shape(), e.pos);
      assert Cell(col, row) == at;
      SetCell(col, row, cells[row, col][e.id := e]);
    }

    /** Takes id out of the cell of (x, y); an id filed elsewhere stays. */
    method RemoveEntity(id: int64, x: real, y: real)
      requires Valid()
      modifies this, cells
      ensures Valid() && table == Unfiled(old(table), CellOf(Shape(), Vec(x, y)), id)
    {
      var col, row := PosToGrid(x, y);
      SetCell(col, row, cells[row, col] - {id});
    }

    /** Across cells, files a new nameless object in the new cell; within a cell, changes nothing. */
    method MoveEntity(id: int64, oldX: real, oldY: real, newX: real, newY: real)
      returns (oldCol: int, oldRow: int, newCol: int, newRow: int, ghost copy: Entity?)
      requires Valid()
      modifies this, cells
      ensures Valid() && Cell(oldCol, oldRow) == CellOf(Shape(), Vec(oldX, oldY))
      ensures Cell(newCol, newRow) == CellOf(Shape(), Vec(newX, newY))
      ensures copy == null <==> Cell(oldCol, oldRow) == Cell(newCol, newRow)
      ensures copy == null ==> table == old(table)
      ensures copy != null ==> fresh(copy) && copy.id == id && copy.name == "" && copy.pos == Vec(newX, newY)
      ensures copy != null ==>
        table == Filed(Unfiled(old(table), Cell(oldCol, oldRow), id), Cell(newCol, newRow), copy)
    {
      oldCol, oldRow := PosToGrid(oldX, oldY);
      newCol, newRow := PosToGrid(newX, newY);
      copy := null;
      if oldCol == newCol && oldRow == newRow {
        return;
      }
      SetCell(oldCol, oldRow, cells[oldRow, oldCol] - {id});
      var e := new Entity(id, "", newX, newY);
      SetCell(newCol, newRow, cells[newRow, newCol][id := e]);
      copy := e;
    }

    /** The inner loop of the queries: appends the entities of one cell whose id is not in skip. */
    method AppendCell(c: Cell, skip: set<int64>, acc: seq<Entity>)
      returns (result: seq<Entity>, ghost added: seq<Entity>)
      requires Valid() && KeysAgree(table) && Shape().Contains(c)
      ensures result == acc + added && Collects(table, added, {c}, skip)
    {
      var cell := cells[c.row, c.col];
      assert table[c] == cell;
      assert forall id: int64 | id in cell :: Holds(table, c, id);
      result, added := acc, [];
      var rest := cell.Keys;
      while rest != {}
        invariant rest <= cell.Keys
        invariant result == acc + added
        invariant forall i | 0 <= i < |added| ::
          added[i].id in cell && cell[added[i].id] == added[i] && added[i].id !in skip && added[i].id !in rest
        invariant forall id: int64 | id in cell && id !in skip && id !in rest :: cell[id] in added
        invariant Distinct(IdsOf(added))
      {
        var id := Pick(rest);
        var e := cell[id];
        if id !in skip {
          result, added := result + [e], added + [e];
        }
        rest := rest - {id};
      }
      assert forall i | 0 <= i < |added| :: Holds(table, c, added[i].id);
    }

    /** The outer loop of the queries, over cells that are all different. */
    method AppendCells(surroundings: seq<Cell>, skip: set<int64>) returns (result: seq<Entity>)
      requires Valid() && KeysAgree(table)
      requires forall i | 0 <= i < |surroundings| :: Shape().Contains(surroundings[i])
      requires forall i, j | 0 <= i < j < |surroundings| :: surroundings[i] != surroundings[j]
      ensures Collects(table, result, Elements(surroundings), skip)
    {
      result := [];
      ghost var t := table;
      for k := 0 to |surroundings|
        invariant Collects(t, result, Elements(surroundings[..k]), skip)
      {
        ghost var before, added := result, [];
        result, added := AppendCell(surroundings[k], skip, result);
        CollectMore(t, before, added, Elements(surroundings[..k]), surroundings[k], skip);
        ElementsOfPrefix(surroundings, k);
      }
      assert surroundings[..|surroundings|] == surroundings;
    }

    /** Everything filed in the 3x3 block around (x, y). */
    method GetVisibleEntities(x: real, y: real) returns (result: seq<Entity>)
      requires Valid() && KeysAgree(table)
      ensures Collects(table, result, Block(table, CellOf(Shape(), Vec(x, y))), {})
    {
      var col, row := PosToGrid(x, y);
      var surroundings := GetSurroundGrids(col, row);
      result := AppendCells(surroundings, {});
      assert Elements(surroundings) == Block(table, Cell(col, row));
    }

    /** The ids filed in the 3x3 block around (col, row). */
    method SurroundIds(col: int, row: int) returns (ids: set<int64>)
      requires Valid()
      ensures ids == SeenIds(table, Cell(col, row))
    {
      var surroundings := GetSurroundGrids(col, row);
      ids := {};
      for k := 0 to |surroundings|
        invariant ids == set c, id: int64 | c in surroundings[..k] && c in table && id in table[c] :: id
      {
        var s := surroundings[k];
        assert Shape().Contains(s) && table[s] == cells[s.row, s.col];
        ids := ids + cells[s.row, s.col].Keys;
      }
    }

    /** What is around the new cell and was not around the old one. */
    method GetNewNeighbors(oldCol: int, oldRow: int, newCol: int, newRow: int) returns (newEntities: seq<Entity>)
      requires Valid() && KeysAgree(table)
      ensures Collects(table, newEntities, Block(table, Cell(newCol, newRow)), SeenIds(table, Cell(oldCol, oldRow)))
    {
      var oldSurround := SurroundIds(oldCol, oldRow);
      var surroundings := GetSurroundGrids(newCol, newRow);
      newEntities := AppendCells(surroundings, oldSurround);
      assert Elements(surroundings) == Block(table, Cell(newCol, newRow));
    }

    /** What is around the old cell and is not around the new one. */
    method GetLostNeighbors(oldCol: int, oldRow: int, newCol: int, newRow: int) returns (lostEntities: seq<Entity>)
      requires Valid() && KeysAgree(table)
      ensures Collects(table, lostEntities, Block(table, Cell(oldCol, oldRow)), SeenIds(table, Cell(newCol, newRow)))
    {
      var newSurround := SurroundIds(newCol, newRow);
      var surroundings := GetSurroundGrids(oldCol, oldRow);
      lostEntities := AppendCells(surroundings, newSurround);
      assert Elements(surroundings) == Block(table, Cell(oldCol, oldRow));
    }
  }
}
