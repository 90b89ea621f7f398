/** Index arithmetic of the initial condition: Python's int() on a float, numpy's
    normalisation of slice bounds, numpy.linspace, and the rectangle of cells
    that initialization stamps. */
module Indexing {

  /** Python's int(x) for a float x: rounds toward zero. */
  function Trunc(x: real): (r: int)
    ensures x >= 0.0 ==> 0 <= r && r as real <= x < r as real + 1.0
    ensures x < 0.0 ==> r <= 0 && r as real - 1.0 < x <= r as real
  {
    if x >= 0.0 then x.Floor else -((-x).Floor)
  }

  /** The position a bound k of a numpy slice stands for on an axis of length n:
      a negative bound counts from the end, and the result is clamped to [0, n]. */
  function SliceBound(k: int, n: nat): (r: nat)
    ensures r <= n
    ensures 0 <= k <= n ==> r == k
    ensures k > n ==> r == n
    ensures k < 0 && k + n >= 0 ==> r == k + n
    ensures k + n < 0 ==> r == 0
  {
    if k < 0 then (if k + n < 0 then 0 else k + n)
    else if k > n then n
    else k
  }

  /** The cells a[rowLo:rowHi, colLo:colHi] of a slice assignment, bounds normalised. */
  datatype Region = Region(rowLo: nat, rowHi: nat, colLo: nat, colHi: nat)
  {
    predicate Contains(i: int, j: int)
    {
      rowLo <= i < rowHi && colLo <= j < colHi
    }
  }

  /** The region of a rows-by-cols grid that initialization stamps: rows from
      int(yRB / dy) to int(yLT / dy), columns from int(xLT / dx) to int(xRB / dx). */
  function StampRegion(dx: real, dy: real, xLT: real, yLT: real, xRB: real, yRB: real,
                       rows: nat, cols: nat): (r: Region)
    requires dx != 0.0 && dy != 0.0
    ensures r.rowHi <= rows && r.colHi <= cols
  {
    Region(SliceBound(Trunc(yRB / dy), rows), SliceBound(Trunc(yLT / dy), rows),
           SliceBound(Trunc(xLT / dx), cols), SliceBound(Trunc(xRB / dx), cols))
  }

  /** With positive spacings and non-negative anchors the stamped cells are those
      whose indices lie in [floor(yRB/dy), floor(yLT/dy)) x [floor(xLT/dx), floor(xRB/dx)). */
  lemma StampRegionOfNonNegativeAnchors(dx: real, dy: real, xLT: real, yLT: real, xRB: real, yRB: real,
                                        rows: nat, cols: nat, i: nat, j: nat)
    requires dx > 0.0 && dy > 0.0
    requires xLT >= 0.0 && yLT >= 0.0 && xRB >= 0.0 && yRB >= 0.0
    requires i < rows && j < cols
    ensures StampRegion(dx, dy, xLT, yLT, xRB, yRB, rows, cols).Contains(i, j) <==>
      (yRB / dy).Floor <= i < (yLT / dy).Floor && (xLT / dx).Floor <= j < (xRB / dx).Floor
  {
    assert yRB / dy >= 0.0 && yLT / dy >= 0.0 && xLT / dx >= 0.0 && xRB / dx >= 0.0;
  }

  /** The same region in physical terms: with positive spacings and non-negative
      anchors, row i is stamped exactly when yRB < (i+1)*dy <= yLT, and column j
      exactly when xLT < (j+1)*dx <= xRB. */
  lemma StampRegionGeometry(dx: real, dy: real, xLT: real, yLT: real, xRB: real, yRB: real,
                            rows: nat, cols: nat, i: nat, j: nat)
    requires dx > 0.0 && dy > 0.0
    requires xLT >= 0.0 && yLT >= 0.0 && xRB >= 0.0 && yRB >= 0.0
    requires i < rows && j < cols
    ensures StampRegion(dx, dy, xLT, yLT, xRB, yRB, rows, cols).Contains(i, j) <==>
      yRB < (i + 1) as real * dy <= yLT && xLT < (j + 1) as real * dx <= xRB
  {
    StampRegionOfNonNegativeAnchors(dx, dy, xLT, yLT, xRB, yRB, rows, cols, i, j);
    FloorBelow(yRB, dy, i);
    FloorBelow(yLT, dy, i);
    FloorBelow(xLT, dx, j);
    FloorBelow(xRB, dx, j);
  }

  /** k < floor(a/d) exactly when (k+1)*d <= a, for d > 0. */
  lemma FloorBelow(a: real, d: real, k: nat)
    requires d > 0.0
    ensures k < (a / d).Floor <==> (k + 1) as real * d <= a
  {
    var q := a / d;
    assert q * d == a;
    if k < q.Floor {
      assert (k + 1) as real <= q;
      assert (k + 1) as real * d <= q * d;
    } else {
      assert q < (k + 1) as real;
      assert q * d < (k + 1) as real * d;
    }
  }

  /** numpy.linspace(0, stop, n) over the reals, for n != 1: the points i * step
      with step = stop / (n - 1). */
  function Linspace(stop: real, n: nat): (r: seq<real>)
    requires n != 1
    ensures |r| == n
  {
    seq(n, i requires 0 <= i < n => i as real * (stop / (n - 1) as real))
  }

  /** The axis starts at 0, ends at `stop`, and is evenly spaced by stop/(n-1). */
  lemma LinspaceEndpoints(stop: real, n: nat)
    requires n >= 2
    ensures Linspace(stop, n)[0] == 0.0 && Linspace(stop, n)[n - 1] == stop
    ensures forall i :: 0 <= i < n - 1 ==>
      Linspace(stop, n)[i + 1] - Linspace(stop, n)[i] == stop / (n - 1) as real
  {
    var step := stop / (n - 1) as real;
    assert (n - 1) as real * step == stop;
    forall i | 0 <= i < n - 1
      ensures Linspace(stop, n)[i + 1] - Linspace(stop, n)[i] == step
    {
      assert (i + 1) as real * step == i as real * step + step;
    }
  }

  /** The web interface's initial anchors (corners (0.5, 1) and (1, 0.5)) on the
      default 51 x 51 grid over [0, 2] x [0, 2] stamp rows and columns 12..24,
      i.e. coordinates 0.48..0.96, not the square [0.5, 1] x [0.5, 1] that the
      hat-function comment describes: the cell at 0.48 is raised, the one at 1.0
      is not. */
  lemma DemoRegion()
    ensures StampRegion(2.0 / 50.0, 2.0 / 50.0, 0.5, 1.0, 1.0, 0.5, 51, 51) == Region(12, 25, 12, 25)
  {
    assert 0.5 / (2.0 / 50.0) == 12.5;
    assert 1.0 / (2.0 / 50.0) == 25.0;
  }

  /** The solver's default configuration (corners (0, 1) and (1, 0)) stamps the
      25 x 25 block of rows and columns 0..24. */
  lemma DefaultRegion()
    ensures StampRegion(2.0 / 50.0, 2.0 / 50.0, 0.0, 1.0, 1.0, 0.0, 51, 51) == Region(0, 25, 0, 25)
  {
    assert 1.0 / (2.0 / 50.0) == 25.0;
  }
}
