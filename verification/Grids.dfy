/** Rectangular grids of numbers and the neighbourhood the grid algorithms walk over. */
module Grids {
  type Grid = seq<seq<int>>
  type Cell = (int, int)

  predicate GridOk(H: Grid) {
    |H| > 0 && |H[0]| > 0 && forall i :: 0 <= i < |H| ==> |H[i]| == |H[0]|
  }

  predicate Inside(H: Grid, c: Cell)
    requires GridOk(H)
  {
    0 <= c.0 < |H| && 0 <= c.1 < |H[0]|
  }

  /** The table `dir`: consecutive entries are the steps to a neighbour. */
  function Dir(k: nat): int
    requires k <= 4
  {
    if k == 0 || k == 4 then -1 else if k == 2 then 1 else 0
  }

  function Neighbour(c: Cell, k: nat): Cell
    requires k < 4
  {
    (c.0 + Dir(k), c.1 + Dir(k + 1))
  }

  predicate Adjacent(c: Cell, d: Cell) {
    d == Neighbour(c, 0) || d == Neighbour(c, 1) || d == Neighbour(c, 2) || d == Neighbour(c, 3)
  }
}
