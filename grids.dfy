/** Value-level view of the solver's ny-by-nx velocity grids.

    A grid is stored row by row, exactly as numpy stores an array of shape
    (rows, cols): g[i][j] is row i (the y direction), column j (the x direction). */
module Fields {

  type Grid = seq<seq<real>>

  /** g has `rows` rows of `cols` entries each. */
  ghost predicate IsGrid(g: Grid, rows: nat, cols: nat)
  {
    |g| == rows && forall i :: 0 <= i < rows ==> |g[i]| == cols
  }

  /** The grid numpy.ones((rows, cols)) scaled to `c`. */
  function Constant(rows: nat, cols: nat, c: real): (g: Grid)
    ensures IsGrid(g, rows, cols)
    ensures forall i, j :: 0 <= i < rows && 0 <= j < cols ==> g[i][j] == c
  {
    seq(rows, _ => seq(cols, _ => c))
  }

  /** The contents of a two-dimensional array as a value. */
  ghost function ToGrid(a: array2<real>): (g: Grid)
    reads a
    ensures IsGrid(g, a.Length0, a.Length1)
    ensures forall i, j :: 0 <= i < a.Length0 && 0 <= j < a.Length1 ==> g[i][j] == a[i, j]
  {
    seq(a.Length0, i requires 0 <= i < a.Length0 reads a =>
      seq(a.Length1, j requires 0 <= j < a.Length1 reads a => a[i, j]))
  }

  /** Two grids of one shape that agree cell by cell are equal. */
  lemma GridExt(g: Grid, h: Grid, rows: nat, cols: nat)
    requires IsGrid(g, rows, cols) && IsGrid(h, rows, cols)
    requires forall i, j :: 0 <= i < rows && 0 <= j < cols ==> g[i][j] == h[i][j]
    ensures g == h
  {
    forall i | 0 <= i < rows
      ensures g[i] == h[i]
    {
      assert forall j :: 0 <= j < cols ==> g[i][j] == h[i][j];
    }
  }
}
