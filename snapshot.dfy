/** The per-step snapshot: a dictionary from a grid point's physical coordinate
    (i*dx, j*dy) to the velocity pair (u[i, j], v[i, j]), filled by the solver's
    nested loop with i outermost. */
module Snapshots {
  import opened Fields

  type DataDict = map<(real, real), (real, real)>

  /** The dictionary key of loop indices (i, j). */
  function Key(i: int, j: int, dx: real, dy: real): (k: (real, real))
  {
    (i as real * dx, j as real * dy)
  }

  /** U and V have at least n rows of at least m entries. */
  ghost predicate Covers(U: Grid, V: Grid, n: nat, m: nat)
  {
    |U| >= n && |V| >= n && forall r :: 0 <= r < n ==> |U[r]| >= m && |V[r]| >= m
  }

  /** (a, b) is visited before (i, j) by the loop `for i in range(n): for j in range(m)`. */
  ghost predicate Before(a: int, b: int, i: int, j: int, m: int)
  {
    0 <= a && 0 <= b < m && (a < i || (a == i && b < j))
  }

  /** The dictionary once the loops have visited every (a, b) before (i, j);
      a later write to an equal key replaces the earlier one, as for a Python dict. */
  function Filled(U: Grid, V: Grid, dx: real, dy: real, m: nat, i: nat, j: nat): (d: DataDict)
    requires j <= m && Covers(U, V, if j == 0 then i else i + 1, m)
    decreases i, j
  {
    if j == 0 then
      if i == 0 then map[] else Filled(U, V, dx, dy, m, i - 1, m)
    else
      Filled(U, V, dx, dy, m, i, j - 1)[Key(i, j - 1, dx, dy) := (U[i][j - 1], V[i][j - 1])]
  }

  /** The snapshot of the whole loop: i over [0, nx), j over [0, ny). */
  function Snapshot(U: Grid, V: Grid, nx: nat, ny: nat, dx: real, dy: real): (d: DataDict)
    requires Covers(U, V, nx, ny)
  {
    Filled(U, V, dx, dy, ny, nx, 0)
  }

  /** A non-zero spacing sends distinct indices to distinct coordinates. */
  lemma ScaleInjective(a: int, b: int, d: real)
    requires d != 0.0 && a as real * d == b as real * d
    ensures a == b
  {
    assert (a as real - b as real) * d == 0.0;
  }

  /** The keys of the partial dictionary are exactly the coordinates visited so far. */
  lemma {:induction false} FilledKeys(U: Grid, V: Grid, dx: real, dy: real, m: nat, i: nat, j: nat)
    requires j <= m && Covers(U, V, if j == 0 then i else i + 1, m)
    ensures forall a, b :: Before(a, b, i, j, m) ==> Key(a, b, dx, dy) in Filled(U, V, dx, dy, m, i, j)
    ensures forall k :: k in Filled(U, V, dx, dy, m, i, j) ==>
      exists a, b :: Before(a, b, i, j, m) && k == Key(a, b, dx, dy)
    decreases i, j
  {
    if j == 0 {
      if i > 0 {
        FilledKeys(U, V, dx, dy, m, i - 1, m);
        forall a, b | Before(a, b, i, j, m) ensures Before(a, b, i - 1, m, m) { }
        forall a, b | Before(a, b, i - 1, m, m) ensures Before(a, b, i, j, m) { }
      }
    } else {
      FilledKeys(U, V, dx, dy, m, i, j - 1);
      var f := Filled(U, V, dx, dy, m, i, j - 1);
      forall k | k in Filled(U, V, dx, dy, m, i, j)
        ensures exists a, b :: Before(a, b, i, j, m) && k == Key(a, b, dx, dy)
      {
        if k == Key(i, j - 1, dx, dy) {
          assert Before(i, j - 1, i, j, m);
        } else {
          assert k in f;
          var a, b :| Before(a, b, i, j - 1, m) && k == Key(a, b, dx, dy);
          assert Before(a, b, i, j, m);
        }
      }
    }
  }

  /** With non-zero spacings the key of indices not yet visited is absent. */
  lemma {:induction false} Unvisited(U: Grid, V: Grid, dx: real, dy: real, m: nat, i: nat, j: nat, a: int, b: int)
    requires dx != 0.0 && dy != 0.0
    requires j <= m && Covers(U, V, if j == 0 then i else i + 1, m)
    requires !Before(a, b, i, j, m)
    ensures Key(a, b, dx, dy) !in Filled(U, V, dx, dy, m, i, j)
    decreases i, j
  {
    if j == 0 {
      if i > 0 {
        Unvisited(U, V, dx, dy, m, i - 1, m, a, b);
      }
    } else {
      assert (a, b) != (i, j - 1) by { assert Before(i, j - 1, i, j, m); }
      if Key(a, b, dx, dy) == Key(i, j - 1, dx, dy) {
        ScaleInjective(a, i, dx);
        ScaleInjective(b, j - 1, dy);
      }
      Unvisited(U, V, dx, dy, m, i, j - 1, a, b);
    }
  }

  /** With non-zero spacings the key written at (i, j) has not been written before. */
  lemma KeyIsNew(U: Grid, V: Grid, dx: real, dy: real, m: nat, i: nat, j: nat)
    requires dx != 0.0 && dy != 0.0
    requires j < m && Covers(U, V, i + 1, m)
    ensures Key(i, j, dx, dy) !in Filled(U, V, dx, dy, m, i, j)
  {
    Unvisited(U, V, dx, dy, m, i, j, i, j);
  }

  /** With non-zero spacings every visit adds one entry. */
  lemma {:induction false} FilledSize(U: Grid, V: Grid, dx: real, dy: real, m: nat, i: nat, j: nat)
    requires dx != 0.0 && dy != 0.0
    requires j <= m && Covers(U, V, if j == 0 then i else i + 1, m)
    ensures |Filled(U, V, dx, dy, m, i, j)| == i * m + j
    decreases i, j
  {
    if j == 0 {
      if i > 0 {
        FilledSize(U, V, dx, dy, m, i - 1, m);
        assert (i - 1) * m + m == i * m;
      }
    } else {
      FilledSize(U, V, dx, dy, m, i, j - 1);
      KeyIsNew(U, V, dx, dy, m, i, j - 1);
      var f := Filled(U, V, dx, dy, m, i, j - 1);
      assert |f[Key(i, j - 1, dx, dy) := (U[i][j - 1], V[i][j - 1])]| == |f| + 1;
    }
  }

  /** With non-zero spacings no two visited indices share a key, so every visited
      (a, b) maps to its own velocity pair. */
  lemma {:induction false} FilledValues(U: Grid, V: Grid, dx: real, dy: real, m: nat, i: nat, j: nat)
    requires dx != 0.0 && dy != 0.0
    requires j <= m && Covers(U, V, if j == 0 then i else i + 1, m)
    ensures forall a, b :: Before(a, b, i, j, m) ==>
      Key(a, b, dx, dy) in Filled(U, V, dx, dy, m, i, j)
      && Filled(U, V, dx, dy, m, i, j)[Key(a, b, dx, dy)] == (U[a][b], V[a][b])
    decreases i, j
  {
    if j == 0 {
      if i > 0 {
        FilledValues(U, V, dx, dy, m, i - 1, m);
        forall a, b | Before(a, b, i, j, m) ensures Before(a, b, i - 1, m, m) { }
      }
    } else {
      FilledValues(U, V, dx, dy, m, i, j - 1);
      var k := Key(i, j - 1, dx, dy);
      forall a, b | Before(a, b, i, j, m) && (a, b) != (i, j - 1)
        ensures Key(a, b, dx, dy) != k && Before(a, b, i, j - 1, m)
      {
        if Key(a, b, dx, dy) == k {
          ScaleInjective(a, i, dx);
          ScaleInjective(b, j - 1, dy);
        }
      }
    }
  }

  /** The layout of a whole snapshot: with non-zero spacings it has exactly
      nx*ny entries, one per grid point (i*dx, j*dy) with 0 <= i < nx and
      0 <= j < ny, holding (U[i][j], V[i][j]), and no other key. */
  lemma SnapshotLayout(U: Grid, V: Grid, nx: nat, ny: nat, dx: real, dy: real)
    requires dx != 0.0 && dy != 0.0
    requires Covers(U, V, nx, ny)
    ensures |Snapshot(U, V, nx, ny, dx, dy)| == nx * ny
    ensures forall i, j :: 0 <= i < nx && 0 <= j < ny ==>
      Key(i, j, dx, dy) in Snapshot(U, V, nx, ny, dx, dy)
      && Snapshot(U, V, nx, ny, dx, dy)[Key(i, j, dx, dy)] == (U[i][j], V[i][j])
    ensures forall k :: k in Snapshot(U, V, nx, ny, dx, dy) ==>
      exists i, j :: 0 <= i < nx && 0 <= j < ny && k == Key(i, j, dx, dy)
  {
    FilledKeys(U, V, dx, dy, ny, nx, 0);
    FilledSize(U, V, dx, dy, ny, nx, 0);
    FilledValues(U, V, dx, dy, ny, nx, 0);
    forall i, j | 0 <= i < nx && 0 <= j < ny ensures Before(i, j, nx, 0, ny) { }
  }
}
