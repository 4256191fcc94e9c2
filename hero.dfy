/**
 * The animated grid behind the hero section of src/pages/hero/Hero.jsx: the grid's
 * size from the element's pixel size, the set of highlighted cells that a timer grows
 * and shrinks, and the list of cells rendered.
 *
 * `gridDims` and `activeCells` are component state (a class); the size rule, the set
 * updaters and the cell list are pure.
 */
module Hero {
  import opened Wrappers

  const CellSize := 70

  /** The number of cells along a side `px` pixels long. */
  datatype GridDims = GridDims(cols: nat, rows: nat)

  /** `offsetWidth` and `offsetHeight` of the home element (whole pixels). */
  datatype Size = Size(width: nat, height: nat)

  /** `Math.ceil(px / 70)`: the fewest 70-pixel cells that cover `px` pixels. */
  function GridDim(px: nat): (count: nat)
    ensures count * CellSize >= px
    ensures count == 0 || (count - 1) * CellSize < px
  {
    (px + CellSize - 1) / CellSize
  }

  /** The copy-then-`add` updater: the new set holds the old cells and `index`. */
  function Added(prev: set<nat>, index: nat): (next: set<nat>)
    ensures forall c :: c in next <==> c in prev || c == index
    ensures |next| == if index in prev then |prev| else |prev| + 1
  {
    prev + {index}
  }

  /** The copy-then-`delete` updater: the new set holds the old cells except `index`. */
  function Removed(prev: set<nat>, index: nat): (next: set<nat>)
    ensures forall c :: c in next <==> c in prev && c != index
    ensures |next| == if index in prev then |prev| - 1 else |prev|
  {
    prev - {index}
  }

  /** Highlighting a cell and then clearing it restores a set that did not hold it. */
  lemma AddThenRemove(prev: set<nat>, index: nat)
    requires index !in prev
    ensures Removed(Added(prev, index), index) == prev
  {
  }

  /** `r * total` stays in `[0, total)` for `r` in `[0, 1)`. */
  lemma ScaledRandomInRange(r: real, total: nat)
    requires 0.0 <= r < 1.0 && total > 0
    ensures 0.0 <= r * total as real < total as real
  {
    assert total as real - r * total as real == (1.0 - r) * total as real;
    assert (1.0 - r) * total as real > 0.0;
    assert r * total as real >= 0.0;
  }

  /** `Math.floor(r * total)`: the cell a random `r` in `[0, 1)` picks among `total` cells. */
  function PickCell(r: real, total: nat): (index: nat)
    requires 0.0 <= r < 1.0 && total > 0
    ensures index < total
    ensures index as real <= r * total as real < index as real + 1.0
  {
    ScaledRandomInRange(r, total);
    (r * total as real).Floor
  }

  /** Every cell of the grid is the pick of some random value: `c / total` picks cell `c`. */
  lemma EveryCellCanBePicked(c: nat, total: nat)
    requires c < total
    ensures 0.0 <= c as real / total as real < 1.0
    ensures PickCell(c as real / total as real, total) == c
  {
    var r := c as real / total as real;
    assert r * total as real == c as real;
    assert c as real < total as real;
  }

  /** The grid's state: its dimensions and the highlighted cells. */
  class HeroGrid {
    var dims: GridDims
    var active: set<nat>

    /** `useState({cols: 0, rows: 0})` and `useState(new Set())`. */
    constructor ()
      ensures dims == GridDims(0, 0) && active == {}
    {
      dims := GridDims(0, 0);
      active := {};
    }

    function TotalCells(): nat
      reads this
    {
      dims.cols * dims.rows
    }

    /** The highlight timer runs only while the grid has cells. */
    predicate IntervalRunning()
      reads this
    {
      TotalCells() != 0
    }

    /** `handleResize`: nothing when the ref is unset; otherwise cover the element with cells. */
    method HandleResize(home: Option<Size>)
      modifies this
      ensures home.None? ==> dims == old(dims)
      ensures home.Some? ==> dims == GridDims(GridDim(home.value.width), GridDim(home.value.height))
      ensures active == old(active)
    {
      if home.None? {
        return;
      }
      var numCols := GridDim(home.value.width);
      var numRows := GridDim(home.value.height);
      dims := GridDims(numCols, numRows);
    }

    /**
     * One tick of the highlight timer with `Math.random()` returning `r`: the cell
     * `floor(r * total)` is highlighted.
     */
    method Tick(r: real) returns (index: nat)
      requires IntervalRunning() && 0.0 <= r < 1.0
      modifies this
      ensures index < TotalCells()
      ensures index as real <= r * TotalCells() as real < index as real + 1.0
      ensures active == Added(old(active), index) && dims == old(dims)
    {
      index := PickCell(r, TotalCells());
      active := Added(active, index);
    }

    /** The timeout 800 ms after a tick: the cell is cleared. */
    method Expire(index: nat)
      modifies this
      ensures active == Removed(old(active), index) && dims == old(dims)
    {
      active := Removed(active, index);
    }
  }

  /** `gridCells`: one cell per grid position; cell `i` is highlighted iff `i` is in the set. */
  function GridCells(dims: GridDims, active: set<nat>): (cells: seq<bool>)
    ensures |cells| == dims.cols * dims.rows
    ensures forall i :: 0 <= i < |cells| ==> (cells[i] <==> i in active)
  {
    var total := dims.cols * dims.rows;
    if total == 0 then [] else seq(total, i => i in active)
  }

  /** The number of highlighted cells in a rendered list. */
  function CountLit(cells: seq<bool>): nat {
    if cells == [] then 0 else CountLit(cells[..|cells| - 1]) + (if cells[|cells| - 1] then 1 else 0)
  }

  /** The highlighted cells below `n`. */
  function ActiveBelow(active: set<nat>, n: nat): set<nat> {
    set i | i in active && i < n
  }

  lemma {:induction false} CountLitPrefix(active: set<nat>, cells: seq<bool>, n: nat)
    requires n <= |cells|
    requires forall i :: 0 <= i < |cells| ==> (cells[i] <==> i in active)
    ensures CountLit(cells[..n]) == |ActiveBelow(active, n)|
  {
    if n > 0 {
      CountLitPrefix(active, cells, n - 1);
      assert cells[..n][..n - 1] == cells[..n - 1];
      if n - 1 in active {
        assert ActiveBelow(active, n) == ActiveBelow(active, n - 1) + {n - 1};
      } else {
        assert ActiveBelow(active, n) == ActiveBelow(active, n - 1);
      }
    } else {
      assert ActiveBelow(active, 0) == {};
    }
  }

  /**
   * The grid shows exactly the highlighted cells that fall inside it: cells left over
   * from a larger grid before a resize are kept in the set but not drawn.
   */
  lemma LitCellsAreActiveCellsInGrid(dims: GridDims, active: set<nat>)
    ensures CountLit(GridCells(dims, active)) == |ActiveBelow(active, dims.cols * dims.rows)|
  {
    var cells := GridCells(dims, active);
    CountLitPrefix(active, cells, |cells|);
    assert cells[..|cells|] == cells;
  }
}
