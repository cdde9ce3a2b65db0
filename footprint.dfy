/**
 * The tiles a structure covers. A structure of size `n` placed on `tile`
 * facing `up` covers the `n` by `n` square spanned from `tile` by `up` and
 * its "relative right" `(up.y, -up.x)`; the game manager visits it with two
 * nested loops, `x` over right and `y` over up, and keeps one dictionary
 * entry per covered tile.
 */
module Footprints {
  import opened Grid

  /** The tile `x` steps right and `y` steps up from `tile`. */
  function Cell(tile: Vec2, up: Vec2, x: int, y: int): Vec2
  {
    tile.Plus(Vec2(up.y, -up.x).Times(x)).Plus(up.Times(y))
  }

  /** Every tile of the footprint. */
  function Cells(tile: Vec2, up: Vec2, size: nat): set<Vec2>
  {
    set x, y | 0 <= x < size && 0 <= y < size :: Cell(tile, up, x, y)
  }

  /** The tiles the nested loops have visited before reaching `(x, y)`. */
  ghost function Done(tile: Vec2, up: Vec2, size: nat, x: int, y: int): set<Vec2>
  {
    set x', y' | 0 <= x' < size && 0 <= y' < size && (x' < x || (x' == x && y' < y)) :: Cell(tile, up, x', y')
  }

  /** The same value on every tile of `cells`. */
  function CellMap<V>(cells: set<Vec2>, v: V): (r: map<Vec2, V>)
    ensures r.Keys == cells
    ensures forall c :: c in r ==> r[c] == v
  {
    map c | c in cells :: v
  }

  /** No tile of the footprint is a key of `m`. */
  predicate Free<V>(m: map<Vec2, V>, tile: Vec2, up: Vec2, size: nat)
  {
    forall x, y :: 0 <= x < size && 0 <= y < size ==> Cell(tile, up, x, y) !in m
  }

  /**
   * For a unit orientation the footprint has no repeated tile: the loops
   * reach each tile once, so adding them one by one to a dictionary never
   * meets a key added earlier in the same placement.
   */
  lemma CellInjective(tile: Vec2, up: Vec2, x1: int, y1: int, x2: int, y2: int)
    requires IsUnit(up)
    ensures Cell(tile, up, x1, y1) == Cell(tile, up, x2, y2) ==> x1 == x2 && y1 == y2
  {
    UnitCell(tile, up, x1, y1);
    UnitCell(tile, up, x2, y2);
  }

  /** A footprint tile for each of the four unit orientations, without multiplication. */
  lemma UnitCell(tile: Vec2, up: Vec2, x: int, y: int)
    requires IsUnit(up)
    ensures up == Vec2(1, 0) ==> Cell(tile, up, x, y) == Vec2(tile.x + y, tile.y - x)
    ensures up == Vec2(-1, 0) ==> Cell(tile, up, x, y) == Vec2(tile.x - y, tile.y + x)
    ensures up == Vec2(0, 1) ==> Cell(tile, up, x, y) == Vec2(tile.x + x, tile.y + y)
    ensures up == Vec2(0, -1) ==> Cell(tile, up, x, y) == Vec2(tile.x - x, tile.y - y)
  {
  }

  /** The footprint of a size-1 structure is its own tile. */
  lemma SingleCell(tile: Vec2, up: Vec2)
    ensures Cells(tile, up, 1) == {tile}
  {
    assert Cell(tile, up, 0, 0) == tile;
  }

  /** A size-1 footprint is free exactly when its own tile is. */
  lemma FreeSingle<V>(m: map<Vec2, V>, tile: Vec2, up: Vec2)
    ensures Free(m, tile, up, 1) <==> tile !in m
  {
    assert Cell(tile, up, 0, 0) == tile;
  }

  /** Adding a size-1 footprint to a map adds its own tile. */
  lemma SingleCellMap<V>(m: map<Vec2, V>, tile: Vec2, up: Vec2, v: V)
    ensures m + CellMap(Cells(tile, up, 1), v) == m[tile := v]
  {
    SingleCell(tile, up);
  }

  /** The origin tile is part of any non-empty footprint. */
  lemma OriginCell(tile: Vec2, up: Vec2, size: nat)
    requires size > 0
    ensures tile in Cells(tile, up, size)
  {
    assert Cell(tile, up, 0, 0) == tile;
  }

  /** The loops' progress: `(x, y)` joins the visited tiles, and a finished row moves to the next. */
  lemma DoneNext(tile: Vec2, up: Vec2, size: nat, x: int, y: int)
    requires 0 <= x < size && 0 <= y < size
    ensures Done(tile, up, size, x, y + 1) == Done(tile, up, size, x, y) + {Cell(tile, up, x, y)}
  {
  }

  lemma DoneRow(tile: Vec2, up: Vec2, size: nat, x: int)
    requires 0 <= x
    ensures Done(tile, up, size, x, size) == Done(tile, up, size, x + 1, 0)
  {
  }

  lemma DoneAll(tile: Vec2, up: Vec2, size: nat)
    ensures Done(tile, up, size, size, 0) == Cells(tile, up, size)
    ensures Done(tile, up, size, 0, 0) == {}
  {
  }

  /** A tile not yet reached is not among the visited ones. */
  lemma NotDone(tile: Vec2, up: Vec2, size: nat, x: int, y: int)
    requires IsUnit(up) && 0 <= x < size && 0 <= y < size
    ensures Cell(tile, up, x, y) !in Done(tile, up, size, x, y)
  {
    if Cell(tile, up, x, y) in Done(tile, up, size, x, y) {
      var x', y' :| 0 <= x' < size && 0 <= y' < size && (x' < x || (x' == x && y' < y)) && Cell(tile, up, x', y') == Cell(tile, up, x, y);
      CellInjective(tile, up, x', y', x, y);
    }
  }

  /** A map is free on a footprint exactly when no footprint tile is one of its keys. */
  lemma FreeIsDisjoint<V>(m: map<Vec2, V>, tile: Vec2, up: Vec2, size: nat)
    ensures Free(m, tile, up, size) <==> Cells(tile, up, size) !! m.Keys
  {
    if Free(m, tile, up, size) {
      forall c | c in Cells(tile, up, size)
        ensures c !in m
      {
        var x, y :| 0 <= x < size && 0 <= y < size && c == Cell(tile, up, x, y);
      }
    } else {
      var x, y :| 0 <= x < size && 0 <= y < size && Cell(tile, up, x, y) in m;
      assert Cell(tile, up, x, y) in Cells(tile, up, size);
    }
  }

  /**
   * `Dictionary.Add` of every footprint tile, all to `v`. The footprint
   * must be free in `m`, as the add throws on a key already present; with
   * a unit orientation no tile comes twice, so none of the adds throws.
   */
  method AddCells<V>(m: map<Vec2, V>, tile: Vec2, up: Vec2, size: nat, v: V) returns (r: map<Vec2, V>)
    requires IsUnit(up) && Free(m, tile, up, size)
    ensures r == m + CellMap(Cells(tile, up, size), v)
    ensures r.Keys == m.Keys + Cells(tile, up, size)
  {
    FreeIsDisjoint(m, tile, up, size);
    DoneAll(tile, up, size);
    CellMapStep(m, {}, tile, v);
    r := m;
    for x := 0 to size
      invariant r == m + CellMap(Done(tile, up, size, x, 0), v)
    {
      for y := 0 to size
        invariant r == m + CellMap(Done(tile, up, size, x, y), v)
      {
        var c := Cell(tile, up, x, y);
        NotDone(tile, up, size, x, y);
        assert c in Cells(tile, up, size);
        DoneNext(tile, up, size, x, y);
        CellMapStep(m, Done(tile, up, size, x, y), c, v);
        r := r[c := v];
      }
      DoneRow(tile, up, size, x);
    }
  }

  /** Adding one more tile to the added ones, and the start with none added. */
  lemma CellMapStep<V>(m: map<Vec2, V>, done: set<Vec2>, c: Vec2, v: V)
    ensures m + CellMap({}, v) == m
    ensures c !in m && c !in done ==> c !in m + CellMap(done, v)
    ensures c !in m ==> (m + CellMap(done, v))[c := v] == m + CellMap(done + {c}, v)
  {
  }

  /** `Dictionary.Remove` of every footprint tile; a tile that is not a key is skipped. */
  method RemoveCells<V>(m: map<Vec2, V>, tile: Vec2, up: Vec2, size: nat) returns (r: map<Vec2, V>)
    ensures r == m - Cells(tile, up, size)
  {
    DoneAll(tile, up, size);
    r := m;
    for x := 0 to size
      invariant r == m - Done(tile, up, size, x, 0)
    {
      for y := 0 to size
        invariant r == m - Done(tile, up, size, x, y)
      {
        DoneNext(tile, up, size, x, y);
        r := r - {Cell(tile, up, x, y)};
      }
      DoneRow(tile, up, size, x);
    }
  }

  /** Stepping `(a, b)` and then `(x, y)` from a tile is stepping `(a + x, b + y)`. */
  lemma CellShift(tile: Vec2, up: Vec2, a: int, b: int, x: int, y: int)
    requires IsUnit(up)
    ensures Cell(Cell(tile, up, a, b), up, x, y) == Cell(tile, up, a + x, b + y)
  {
    UnitCell(tile, up, a, b);
    UnitCell(Cell(tile, up, a, b), up, x, y);
    UnitCell(tile, up, a + x, b + y);
  }

  /** A footprint spanned from the tile one step right and one step up of `tile` does not reach `tile`. */
  lemma ShiftedMisses(tile: Vec2, up: Vec2, size: nat)
    requires IsUnit(up)
    ensures tile !in Cells(Cell(tile, up, 1, 1), up, size)
  {
    forall x, y | 0 <= x < size && 0 <= y < size
      ensures Cell(Cell(tile, up, 1, 1), up, x, y) != tile
    {
      CellShift(tile, up, 1, 1, x, y);
      CellInjective(tile, up, x + 1, y + 1, 0, 0);
      assert Cell(tile, up, 0, 0) == tile;
    }
  }
}
