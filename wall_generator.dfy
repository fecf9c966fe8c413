/** The wall-fill batch generator: a size-by-size matrix of walls, the
    substrate that maze generators carve passages out of. */
module WallGenerator {
  import opened CellState
  import opened Grid

  /** Builds the matrix row by row; each row is a new array, filled entry by
      entry. A size of zero or less gives the empty matrix. */
  method Create(size: int) returns (grid: seq<array<State>>)
    ensures |grid| == if size <= 0 then 0 else size
    ensures forall i :: 0 <= i < |grid| ==> fresh(grid[i]) && grid[i].Length == |grid|
    ensures DistinctRows(grid)
    ensures forall i, j :: 0 <= i < |grid| && 0 <= j < grid[i].Length ==> grid[i][j] == Wall
  {
    grid := [];
    var i := 0;
    while i < size
      invariant 0 <= i && (i <= size || i == 0)
      invariant |grid| == i
      invariant forall k :: 0 <= k < i ==> fresh(grid[k]) && grid[k].Length == size
      invariant DistinctRows(grid)
      invariant forall k, j :: 0 <= k < i && 0 <= j < grid[k].Length ==> grid[k][j] == Wall
    {
      var row := new State[size];
      grid := grid + [row];
      var j := 0;
      while j < size
        invariant 0 <= j <= size
        invariant forall m :: 0 <= m < j ==> row[m] == Wall
        invariant forall k, m :: 0 <= k < i && 0 <= m < grid[k].Length ==> grid[k][m] == Wall
      {
        row[j] := Wall;
        j := j + 1;
      }
      i := i + 1;
    }
  }
}
