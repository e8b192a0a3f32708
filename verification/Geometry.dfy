/** Map coordinates, grid cells and the 3x3 neighbourhood, as plain values. */
module Geometry {
  import opened GoTypes

  datatype Vec = Vec(x: real, y: real)

  datatype Cell = Cell(col: int, row: int)

  /** The part of a grid that decides which cell a coordinate falls into. */
  datatype Dims = Dims(cols: int, rows: int, gridSize: real) {
    predicate Ok() {
      cols >= 1 && rows >= 1 && gridSize >= 1.0
    }

    predicate Contains(c: Cell) {
      0 <= c.col < cols && 0 <= c.row < rows
    }
  }

  /** The bound that positions from clients are clamped to. */
  const MAP_LIMIT := 1000.0

  function ClampCoord(v: real): real {
    var low := if v < MAP_LIMIT then v else MAP_LIMIT;
    if low > 0.0 then low else 0.0
  }

  /** The distance between two coordinates. */
  function Distance(u: real, v: real): real {
    if u <= v then v - u else u - v
  }

  /** c is the coordinate of the map, from 0 to 1000, that is nearest to v: v itself if it is one. */
  ghost predicate NearestOnMap(v: real, c: real) {
    0.0 <= c <= 1000.0 && forall u: real :: 0.0 <= u <= 1000.0 ==> Distance(c, v) <= Distance(u, v)
  }

  lemma ClampIff(v: real, c: real)
    ensures c == ClampCoord(v) <==> NearestOnMap(v, c)
    ensures ClampCoord(v) == if v < 0.0 then 0.0 else if v > 1000.0 then 1000.0 else v
  {
    if NearestOnMap(v, c) {
      assert Distance(c, v) <= Distance(ClampCoord(v), v);
    }
  }

  /** Conversion of a floating-point number to an integer: towards zero. */
  function Trunc(r: real): int {
    if r >= 0.0 then r.Floor else -((-r).Floor)
  }

  function ClampIndex(i: int, n: int): int {
    if i < 0 then 0 else if i >= n then n - 1 else i
  }

  /** Index of a coordinate along one axis; outside the map it is the border's. */
  function AxisIndex(a: real, gridSize: real, n: int): (i: int)
    requires gridSize >= 1.0 && n >= 1
    ensures 0 <= i < n
  {
    ClampIndex(Trunc(a / gridSize), n)
  }

  function CellOf(d: Dims, p: Vec): (c: Cell)
    requires d.Ok()
    ensures d.Contains(c)
  {
    Cell(AxisIndex(p.x, d.gridSize, d.cols), AxisIndex(p.y, d.gridSize, d.rows))
  }

  /** Chebyshev distance at most 1: each cell lies in the other's 3x3 block. */
  predicate Near(a: Cell, b: Cell) {
    -1 <= a.col - b.col <= 1 && -1 <= a.row - b.row <= 1
  }

  /** Everyone but id whose cell lies in the 3x3 block around id's cell. */
  ghost function Neighbours(d: Dims, pos: map<int64, Vec>, id: int64): set<int64>
    requires d.Ok() && id in pos
  {
    set o: int64 | o in pos && o != id && Near(CellOf(d, pos[o]), CellOf(d, pos[id]))
  }

  // ---------------------------------------------------------------------
  // What a cell means on the map
  // ---------------------------------------------------------------------

  /** Number of columns (or rows) that covers a map side. */
  function CellCount(side: real, gridSize: real): int
    requires gridSize >= 1.0
  {
    var whole := Trunc(side / gridSize);
    if Trunc(side) % Trunc(gridSize) != 0 then whole + 1 else whole
  }

  lemma Scaled(p: real, q: real, g: real)
    requires g > 0.0 && p <= q
    ensures p * g <= q * g && p / g <= q / g
  {}

  lemma Quotient(q: real, a: real, g: real)
    requires g > 0.0 && q * g == a
    ensures a / g == q
  {}

  /** The index of a coordinate grows with it, by at most one per grid size. */
  lemma IndexStep(a: real, b: real, g: real, n: int)
    requires g >= 1.0 && n >= 1 && a <= b <= a + g
    ensures 0 <= AxisIndex(b, g, n) - AxisIndex(a, g, n) <= 1
  {
    var q, r := a / g, b / g;
    assert q <= r by { Scaled(a, b, g); }
    assert r <= q + 1.0 by {
      Scaled(b, a + g, g);
      Quotient(q + 1.0, a + g, g);
    }
  }

  /** Along one axis, an index pins the coordinate to a closed strip, the border strips included. */
  lemma IndexStrip(a: real, g: real, n: int, k: int)
    requires g >= 1.0 && n >= 1 && OnAxis(a, g, n) && k == AxisIndex(a, g, n)
    ensures k as real * g <= a <= (k + 1) as real * g
  {
    var q := a / g;
    assert 0.0 <= q <= n as real by {
      Scaled(0.0, a, g);
      Scaled(a, n as real * g, g);
      Quotient(n as real, n as real * g, g);
    }
    StripAround(q, a, g, k);
  }

  lemma StripAround(q: real, a: real, g: real, k: int)
    requires g > 0.0 && q * g == a && k as real <= q <= (k + 1) as real
    ensures k as real * g <= a <= (k + 1) as real * g
  {
    Scaled(k as real, q, g);
    Scaled(q, (k + 1) as real, g);
  }

  // ---------------------------------------------------------------------
  // Grid lines
  // ---------------------------------------------------------------------

  /** A coordinate has reached the k-th inner grid line, or is on it, exactly if its index is at least k. */
  lemma ReachedIff(a: real, g: real, n: int, k: int)
    requires g >= 1.0 && 1 <= k < n
    ensures AxisIndex(a, g, n) >= k <==> k as real * g <= a
  {
    var q := a / g;
    Cancelled(a, g);
    if k as real <= q {
      Scaled(k as real, q, g);
    } else {
      StrictScaled(q, k as real, g);
    }
  }

  /** The strip of an index: from its line on, and before the next; the first and last one have no outer line. */
  lemma IndexIff(a: real, g: real, n: int, k: int)
    requires g >= 1.0 && 0 <= k < n
    ensures AxisIndex(a, g, n) == k <==>
            (k == 0 || k as real * g <= a) && (k == n - 1 || a < (k + 1) as real * g)
  {
    hide AxisIndex;
    if k > 0 { ReachedIff(a, g, n, k); }
    if k < n - 1 { ReachedIff(a, g, n, k + 1); }
  }

  /** The k-th strip of an axis: from its line on and before the next one; what is outside belongs to the border's. */
  predicate InStrip(a: real, g: real, n: int, k: int) {
    && (0.0 <= a < n as real * g ==> k as real * g <= a < (k + 1) as real * g)
    && (a < 0.0 ==> k == 0) && (a >= n as real * g ==> k == n - 1)
  }

  lemma IndexInStrip(a: real, g: real, n: int)
    requires g >= 1.0 && n >= 1
    ensures InStrip(a, g, n, AxisIndex(a, g, n))
  {
    var k := AxisIndex(a, g, n);
    IndexIff(a, g, n, k);
    hide AxisIndex;
    var low, high, end := k as real * g, (k + 1) as real * g, n as real * g;
    assert 0.0 <= low && (k == 0 ==> low == 0.0) by {
      Scaled(0.0, k as real, g);
    }
    assert high <= end && (k == n - 1 ==> high == end) by {
      Scaled((k + 1) as real, n as real, g);
    }
  }

  function Line(k: int, g: real): real {
    k as real * g
  }

  /** Two neighbouring inner grid lines lie between a and b. */
  ghost predicate StripBetween(a: real, b: real, g: real, n: int) {
    exists k: int :: BetweenAt(a, b, g, n, k)
  }

  ghost predicate BetweenAt(a: real, b: real, g: real, n: int, k: int) {
    1 <= k < n - 1 && ((a < Line(k, g) && Line(k + 1, g) <= b) || (b < Line(k, g) && Line(k + 1, g) <= a))
  }

  /** Along an axis, indexes are near exactly if no strip lies between. */
  lemma AxisNearIff(a: real, b: real, g: real, n: int)
    requires g >= 1.0 && n >= 1
    ensures -1 <= AxisIndex(a, g, n) - AxisIndex(b, g, n) <= 1 <==> !StripBetween(a, b, g, n)
  {
    var i, j := AxisIndex(a, g, n), AxisIndex(b, g, n);
    hide AxisIndex, Line;
    if i + 1 < j { BetweenLow(a, b, g, n, i, j); }
    if j + 1 < i { BetweenLow(b, a, g, n, j, i); }
    forall k | BetweenAt(a, b, g, n, k) ensures i - j > 1 || j - i > 1 {
      LineIff(a, g, n, k);
      LineIff(b, g, n, k);
      LineIff(a, g, n, k + 1);
      LineIff(b, g, n, k + 1);
    }
  }

  lemma LineIff(a: real, g: real, n: int, k: int)
    requires g >= 1.0 && 1 <= k < n
    ensures AxisIndex(a, g, n) >= k <==> Line(k, g) <= a
  {
    hide AxisIndex;
    ReachedIff(a, g, n, k);
  }

  lemma BetweenLow(a: real, b: real, g: real, n: int, i: int, j: int)
    requires g >= 1.0 && n >= 1 && i == AxisIndex(a, g, n) && j == AxisIndex(b, g, n) && i + 1 < j
    ensures BetweenAt(a, b, g, n, i + 1) && BetweenAt(b, a, g, n, i + 1)
  {
    LineIff(a, g, n, i + 1);
    LineIff(b, g, n, i + 2);
  }

  /**
   * Who sees whom, by positions alone: another player is among the neighbours exactly if on neither axis a whole
   * inner strip of the grid lies between the two.
   */
  lemma NeighbourIff(d: Dims, pos: map<int64, Vec>, id: int64, o: int64)
    requires d.Ok() && id in pos
    ensures o in Neighbours(d, pos, id) <==>
            && o in pos && o != id
            && !StripBetween(pos[o].x, pos[id].x, d.gridSize, d.cols)
            && !StripBetween(pos[o].y, pos[id].y, d.gridSize, d.rows)
  {
    hide AxisIndex;
    if o in pos {
      AxisNearIff(pos[o].x, pos[id].x, d.gridSize, d.cols);
      AxisNearIff(pos[o].y, pos[id].y, d.gridSize, d.rows);
    }
  }

  /** On the shipped grid a role at (100, 100), where it is created, is in cell (1, 1), and sees one at (250, 100). */
  lemma OnTheLineExample()
    ensures var d := Dims(10, 10, 100.0);
            && CellOf(d, Vec(100.0, 100.0)) == Cell(1, 1)
            && Neighbours(d, map[1 := Vec(100.0, 100.0), 2 := Vec(250.0, 100.0), 3 := Vec(300.0, 100.0)], 1) == {2}
  {
    hide AxisIndex;
    IndexIff(100.0, 100.0, 10, 1);
    IndexIff(250.0, 100.0, 10, 2);
    IndexIff(300.0, 100.0, 10, 3);
  }

  /** Two positions at most one grid size apart on each axis always see each other, also outside the map. */
  lemma CloseMeansNear(d: Dims, p: Vec, q: Vec)
    requires d.Ok()
    requires -d.gridSize <= p.x - q.x <= d.gridSize && -d.gridSize <= p.y - q.y <= d.gridSize
    ensures Near(CellOf(d, p), CellOf(d, q))
  {
    if p.x <= q.x { IndexStep(p.x, q.x, d.gridSize, d.cols); } else { IndexStep(q.x, p.x, d.gridSize, d.cols); }
    if p.y <= q.y { IndexStep(p.y, q.y, d.gridSize, d.rows); } else { IndexStep(q.y, p.y, d.gridSize, d.rows); }
  }

  predicate OnAxis(a: real, gridSize: real, n: int) {
    0.0 <= a <= n as real * gridSize
  }

  predicate OnGrid(d: Dims, p: Vec) {
    OnAxis(p.x, d.gridSize, d.cols) && OnAxis(p.y, d.gridSize, d.rows)
  }

  /** Two positions on the grid that see each other are at most two grid sizes apart on each axis. */
  lemma NearMeansClose(d: Dims, p: Vec, q: Vec)
    requires d.Ok() && OnGrid(d, p) && OnGrid(d, q)
    requires Near(CellOf(d, p), CellOf(d, q))
    ensures -(d.gridSize + d.gridSize) <= p.x - q.x <= d.gridSize + d.gridSize
    ensures -(d.gridSize + d.gridSize) <= p.y - q.y <= d.gridSize + d.gridSize
  {
    var a, b, g := CellOf(d, p), CellOf(d, q), d.gridSize;
    assert -(g + g) <= p.x - q.x <= g + g by {
      AxisClose(p.x, q.x, g, d.cols, a.col, b.col);
      AxisClose(q.x, p.x, g, d.cols, b.col, a.col);
    }
    assert -(g + g) <= p.y - q.y <= g + g by {
      AxisClose(p.y, q.y, g, d.rows, a.row, b.row);
      AxisClose(q.y, p.y, g, d.rows, b.row, a.row);
    }
  }

  lemma AxisClose(a: real, b: real, g: real, n: int, i: int, j: int)
    requires g >= 1.0 && n >= 1
    requires OnAxis(a, g, n) && OnAxis(b, g, n)
    requires i == AxisIndex(a, g, n) && j == AxisIndex(b, g, n) && i - j <= 1
    ensures a - b <= g + g
  {
    IndexStrip(a, g, n, i);
    IndexStrip(b, g, n, j);
    StripsApart(a, b, i, j, g);
  }

  lemma StripsApart(a: real, b: real, i: int, j: int, g: real)
    requires g > 0.0 && i - j <= 1
    requires a <= (i + 1) as real * g && j as real * g <= b
    ensures a - b <= g + g
  {
    Scaled((i + 1) as real, (j + 2) as real, g);
    assert (j + 2) as real * g == j as real * g + (g + g);
  }

  /**
   * For whole-number sizes the cell count is the ceiling of side / gridSize: the cells cover the side with
   * less than one to spare.
   */
  lemma CellsCoverSide(side: int, gridSize: int)
    requires side >= 1 && gridSize >= 1
    ensures var n := CellCount(side as real, gridSize as real);
            n >= 1 && (n - 1) * gridSize < side <= n * gridSize
  {
    var q := side / gridSize;
    var g := gridSize as real;
    WholeQuotient(side, gridSize);
    assert Trunc(side as real / g) == q;
    assert Trunc(side as real) == side && Trunc(g) == gridSize;
    assert side == q * gridSize + side % gridSize;
    assert (q + 1) * gridSize == q * gridSize + gridSize;
    assert (q - 1) * gridSize == q * gridSize - gridSize;
  }

  /**
   * For other sizes the test for a remainder looks at whole parts only: the cells cover the side exactly
   * when that test sees one, or there is none. A side of 200.5 in cells of 100 gets two of them.
   */
  lemma CoversIff(side: real, gridSize: real)
    requires side >= 0.0 && gridSize >= 1.0
    ensures side <= CellCount(side, gridSize) as real * gridSize <==>
            Trunc(side) % Trunc(gridSize) != 0 || Trunc(side / gridSize) as real * gridSize == side
    ensures CellCount(200.5, 100.0) == 2
  {
    var whole := Trunc(side / gridSize);
    assert whole as real * gridSize <= side < (whole + 1) as real * gridSize by {
      Cancelled(side, gridSize);
      Floored(side / gridSize, side, gridSize, whole as real, (whole + 1) as real);
    }
    assert 200.5 / 100.0 == 2.005;
  }

  lemma Floored(q: real, a: real, g: real, low: real, high: real)
    requires g > 0.0 && q * g == a && low <= q < high
    ensures low * g <= a < high * g
  {
    Scaled(low, q, g);
    StrictScaled(q, high, g);
  }

  lemma StrictScaled(p: real, q: real, g: real)
    requires g > 0.0 && p < q
    ensures p * g < q * g
  {}

  lemma WholeQuotient(a: int, g: int)
    requires g >= 1 && a >= 0
    ensures (a / g) as real <= a as real / g as real < (a / g + 1) as real
  {
    var q := a / g;
    assert q * g <= a < q * g + g;
    Product(q, g);
    RealQuotient(a as real, q as real, g as real);
  }

  lemma Product(a: int, b: int)
    ensures (a * b) as real == a as real * b as real
  {}

  lemma RealQuotient(a: real, q: real, g: real)
    requires g > 0.0 && q * g <= a < q * g + g
    ensures q <= a / g < q + 1.0
  {
    Cancelled(a, g);
    if a / g < q {
      StrictScaled(a / g, q, g);
    } else if q + 1.0 <= a / g {
      assert (q + 1.0) * g == q * g + g;
      Scaled(q + 1.0, a / g, g);
    }
  }

  lemma Cancelled(a: real, g: real)
    requires g > 0.0
    ensures a / g * g == a
  {}
}
