/** The cell matrix as the grid model keeps it: a sequence of rows, each row
    an array that is written in place. Nothing stops two rows from being the
    same array, so the write below is stated for that case too. */
module Grid {
  import opened CellState

  /** The labels of a matrix, read row by row in the current heap. */
  ghost function Contents(rows: seq<array<State>>): (g: seq<seq<State>>)
    reads rows
    ensures |g| == |rows|
  {
    seq(|rows|, i requires 0 <= i < |rows| reads rows => rows[i][..])
  }

  /** No array serves as two rows. */
  predicate DistinctRows(rows: seq<array<State>>) {
    forall i, j :: 0 <= i < j < |rows| ==> rows[i] != rows[j]
  }

  predicate InGrid(g: seq<seq<State>>, p: Indices) {
    0 <= p.x < |g| && 0 <= p.y < |g[p.x]|
  }

  /** The labels after `rows[x][y] := s`, where `g` were the labels before:
      every row that is the same array as row x sees the write. */
  function Write(rows: seq<array<State>>, g: seq<seq<State>>, x: int, y: int, s: State): (r: seq<seq<State>>)
    requires |rows| == |g| && 0 <= x < |g|
    ensures |r| == |g| && forall i :: 0 <= i < |g| ==> |r[i]| == |g[i]|
  {
    seq(|g|, i requires 0 <= i < |g| =>
      if rows[i] == rows[x] && 0 <= y < |g[i]| then g[i][y := s] else g[i])
  }

  /** The labels with the one cell at `p` set to `s`. */
  function Set(g: seq<seq<State>>, p: Indices, s: State): (r: seq<seq<State>>)
    requires InGrid(g, p)
    ensures |r| == |g| && forall i :: 0 <= i < |g| ==> |r[i]| == |g[i]|
  {
    g[p.x := g[p.x][p.y := s]]
  }

  /** With no aliased rows, a write changes exactly one cell. */
  lemma WriteDistinct(rows: seq<array<State>>, g: seq<seq<State>>, x: int, y: int, s: State)
    requires |rows| == |g| && DistinctRows(rows) && InGrid(g, Indices(x, y))
    ensures Write(rows, g, x, y, s) == Set(g, Indices(x, y), s)
  {
    var r := Write(rows, g, x, y, s);
    forall i | 0 <= i < |g| ensures r[i] == Set(g, Indices(x, y), s)[i] {
      if i != x {
        if i < x { assert rows[i] != rows[x]; } else { assert rows[x] != rows[i]; }
      }
    }
  }
}
