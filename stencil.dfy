/** The explicit finite-difference update of the 2-D viscous Burgers system,
    computed over real numbers (an abstraction of the source's IEEE doubles). */
module Stencil {
  import opened Fields

  /** The tuple computed by the solver's configuration read-out:
      (nx, ny, nt, dx, dy, CFL, nu, dt, fx, fy). */
  datatype StepConfig = StepConfig(
    nx: int, ny: int, nt: int,
    dx: real, dy: real,
    cfl: real, nu: real, dt: real,
    fx: real, fy: real)

  /** The new value of a transported field q at one interior cell: upwind
      advection against column j-1 (x) and row i-1 (y), central diffusion over
      the four neighbours. qW, qE are q at columns j-1, j+1; qN, qS are q at
      rows i-1, i+1; uC, vC are the old velocities at the cell itself. */
  function Update(c: StepConfig, q: real, qW: real, qE: real, qN: real, qS: real, uC: real, vC: real): (r: real)
    requires c.dx != 0.0 && c.dy != 0.0
  {
    q
    - c.dt / c.dx * uC * (q - qW)
    - c.dt / c.dy * vC * (q - qN)
    + c.nu * c.dt / (c.dx * c.dx) * (qE - 2.0 * q + qW)
    + c.nu * c.dt / (c.dy * c.dy) * (qS - 2.0 * q + qN)
  }

  /** A constant field is left unchanged by the update whatever the advecting
      velocities: every difference in it vanishes. */
  lemma UpdateOfConstant(c: StepConfig, k: real, uC: real, vC: real)
    requires c.dx != 0.0 && c.dy != 0.0
    ensures Update(c, k, k, k, k, k, uC, vC) == k
  {
  }

  /** (i, j) lies on row 0, row rows-1, column 0 or column cols-1. */
  predicate OnBorder(i: int, j: int, rows: int, cols: int)
  {
    i == 0 || i == rows - 1 || j == 0 || j == cols - 1
  }

  /** One step of the solver applied to the transported field q with the old
      velocities (un, vn): the interior gets Update, the border is clamped to 1. */
  function Next(q: Grid, un: Grid, vn: Grid, rows: nat, cols: nat, c: StepConfig): (g: Grid)
    requires IsGrid(q, rows, cols) && IsGrid(un, rows, cols) && IsGrid(vn, rows, cols)
    requires c.dx != 0.0 && c.dy != 0.0
    ensures IsGrid(g, rows, cols)
  {
    seq(rows, i requires 0 <= i < rows =>
      seq(cols, j requires 0 <= j < cols => Cell(q, un, vn, rows, cols, c, i, j)))
  }

  /** The new value of q at cell (i, j) of a step. */
  function Cell(q: Grid, un: Grid, vn: Grid, rows: nat, cols: nat, c: StepConfig, i: nat, j: nat): (r: real)
    requires IsGrid(q, rows, cols) && IsGrid(un, rows, cols) && IsGrid(vn, rows, cols)
    requires c.dx != 0.0 && c.dy != 0.0
    requires i < rows && j < cols
  {
    if OnBorder(i, j, rows, cols) then 1.0
    else Update(c, q[i][j], q[i][j - 1], q[i][j + 1], q[i - 1][j], q[i + 1][j], un[i][j], vn[i][j])
  }

  /** The new u grid: u is transported by itself. */
  function NextU(un: Grid, vn: Grid, rows: nat, cols: nat, c: StepConfig): (g: Grid)
    requires IsGrid(un, rows, cols) && IsGrid(vn, rows, cols)
    requires c.dx != 0.0 && c.dy != 0.0
    ensures IsGrid(g, rows, cols)
  {
    Next(un, un, vn, rows, cols, c)
  }

  /** The new v grid: v is transported by the same old velocities. */
  function NextV(un: Grid, vn: Grid, rows: nat, cols: nat, c: StepConfig): (g: Grid)
    requires IsGrid(un, rows, cols) && IsGrid(vn, rows, cols)
    requires c.dx != 0.0 && c.dy != 0.0
    ensures IsGrid(g, rows, cols)
  {
    Next(vn, un, vn, rows, cols, c)
  }

  /** One cell of a step: 1 on the border, the update of its neighbourhood inside. */
  lemma NextAt(q: Grid, un: Grid, vn: Grid, rows: nat, cols: nat, c: StepConfig, i: nat, j: nat)
    requires IsGrid(q, rows, cols) && IsGrid(un, rows, cols) && IsGrid(vn, rows, cols)
    requires c.dx != 0.0 && c.dy != 0.0
    requires i < rows && j < cols
    ensures Next(q, un, vn, rows, cols, c)[i][j] ==
      if OnBorder(i, j, rows, cols) then 1.0
      else Update(c, q[i][j], q[i][j - 1], q[i][j + 1], q[i - 1][j], q[i + 1][j], un[i][j], vn[i][j])
  {
  }

  /** Dirichlet condition: after a step every border cell of u and v is 1,
      whatever the old fields were. */
  lemma BorderIsOne(un: Grid, vn: Grid, rows: nat, cols: nat, c: StepConfig)
    requires IsGrid(un, rows, cols) && IsGrid(vn, rows, cols)
    requires c.dx != 0.0 && c.dy != 0.0
    ensures forall i, j :: 0 <= i < rows && 0 <= j < cols && OnBorder(i, j, rows, cols) ==>
      NextU(un, vn, rows, cols, c)[i][j] == 1.0 && NextV(un, vn, rows, cols, c)[i][j] == 1.0
  {
  }

  /** The update is local: the new value at an interior cell depends only on the
      five-point neighbourhood of that cell in the old fields. */
  lemma NextIsLocal(q: Grid, un: Grid, vn: Grid, q': Grid, un': Grid, vn': Grid,
                    rows: nat, cols: nat, c: StepConfig, i: nat, j: nat)
    requires IsGrid(q, rows, cols) && IsGrid(un, rows, cols) && IsGrid(vn, rows, cols)
    requires IsGrid(q', rows, cols) && IsGrid(un', rows, cols) && IsGrid(vn', rows, cols)
    requires c.dx != 0.0 && c.dy != 0.0
    requires 0 < i < rows - 1 && 0 < j < cols - 1
    requires q[i][j] == q'[i][j] && un[i][j] == un'[i][j] && vn[i][j] == vn'[i][j]
    requires q[i][j - 1] == q'[i][j - 1] && q[i][j + 1] == q'[i][j + 1]
    requires q[i - 1][j] == q'[i - 1][j] && q[i + 1][j] == q'[i + 1][j]
    ensures Next(q, un, vn, rows, cols, c)[i][j] == Next(q', un', vn', rows, cols, c)[i][j]
  {
  }

  /** The field that is 1 everywhere is a fixed point of the step. */
  lemma UniformFieldIsFixed(rows: nat, cols: nat, c: StepConfig)
    requires c.dx != 0.0 && c.dy != 0.0
    ensures NextU(Constant(rows, cols, 1.0), Constant(rows, cols, 1.0), rows, cols, c) == Constant(rows, cols, 1.0)
    ensures NextV(Constant(rows, cols, 1.0), Constant(rows, cols, 1.0), rows, cols, c) == Constant(rows, cols, 1.0)
  {
    var one := Constant(rows, cols, 1.0);
    var g := Next(one, one, one, rows, cols, c);
    forall i, j | 0 <= i < rows && 0 <= j < cols
      ensures g[i][j] == one[i][j]
    {
      if !OnBorder(i, j, rows, cols) {
        UpdateOfConstant(c, 1.0, 1.0, 1.0);
      }
    }
    GridExt(g, one, rows, cols);
  }
}
