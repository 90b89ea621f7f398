# Burgers solver model

A Dafny model of the `Solver` class in `solver.py`. The class is an explicit
finite-difference time-stepper for the 2-D viscous Burgers system
u_t + u u_x + v u_y = nu (u_xx + u_yy), and likewise for v, on a rectangle
[0, fx] x [0, fy].

The solver's life cycle:

- Construction sets the default configuration and an empty history.
  The solver is 51 x 51 points on [0, 2]^2, with nu = 0.01, CFL = 0.0009 and nt = 1000.
- A caller may overwrite any setting. The web interface does so (`Configure`).
- `initialize` allocates `u`, `v`, `un`, `vn` as ny x nx arrays of ones. It
  builds the axes and stamps `initX` into `u` and `initY` into `v` on a rectangle of
  cells computed from the anchors.
- `solve_next_step` does one of two things:
  - Once the step counter equals nt, it reports completion and changes nothing.
  - Otherwise it performs one step:
    1. copy `u` and `v` into `un` and `vn`;
    2. apply the upwind-advection and central-diffusion stencil to the interior;
    3. clamp the border to 1;
    4. append a dictionary from each point (i*dx, j*dy) to (u[i,j], v[i,j]) to the history;
    5. increment the counter.

Modules:

- `Fields` (`grids.dfy`): the value view `Grid = seq<seq<real>>` of an array, plus grid extensionality.
- `Stencil` (`stencil.dfy`): the configuration tuple `StepConfig`, the
  one-cell update `Update` and one whole step `Next` on grids. It also holds the
  lemmas about a step: the border is 1, the update is local, and a uniform field is a fixed point.
- `Snapshots` (`snapshot.dfy`): the per-step dictionary, defined as the fold `Filled` of the
  nested loop (a later write to an equal key wins, as in a Python dict). Its layout is proved.
- `Indexing` (`indexing.dfy`):
  - Python's `int()` on a float (truncation toward zero);
  - numpy's slice-bound normalisation (negative bounds count from the end, then clamp to [0, n]);
  - `numpy.linspace`;
  - the stamped region.
- `BurgersSolver` (`solver.dfy`):
  - the `Solver` class, with its fields, `array2?<real>` grids that are `null` until initialization,
    a `seq` for the history list and the counter;
  - the in-place operations as methods with loops over `array2<real>`: the slice
    fill, the interior sweep, the border clamp and the snapshot loop;
  - the demo's driving loop.

Each state-changing method ties the new array contents to the value-level
functions (`ToGrid(u) == NextU(...)`, `m == Snapshot(...)`). The lemmas in
`Stencil`, `Snapshots` and `Indexing` then state what those functions mean.

Arithmetic is over `real`, an abstraction of IEEE doubles. Python integer
settings (`nx`, `ny`, `nt`) are `int`. Python's `/` on them yields a float, so
`dx = fx / (nx - 1)` is real division.

Three behaviours of the code worth knowing:

- `initialize` does not reset the step counter or the history. Only construction
  sets them (`solver.py:27-28`). The web interface gets a fresh run by constructing
  a new solver (`burgersDemo.py:168`). `Initialize` leaves both unchanged, because its
  frame excludes them.
- The anchors (0.5, 1) / (1, 0.5) on the default grid stamp rows and columns 12..24,
  i.e. coordinates 0.48..0.96. This is not the square [0.5, 1]^2 named in the comment
  at `solver.py:58`. `DemoRegion` proves the indices.
- The snapshot loop indexes `u[i, j]` with `i < nx` as the row (of which there are `ny`) and `j < ny`
  as the column (of which there are `nx`). It stays in bounds only when `nx == ny`.
  `SolveNextStep` therefore requires `nx == ny` on the non-terminal path.

## Model

| member | source | states |
|---|---|---|
| BurgersSolver.Solver.constructor | solver.py:17-28 | the default settings (51, 51, 2, 2, 2, 2, 0.01, anchors (0, 1) and (1, 0), CFL 0.0009, nt 1000), counter 0, empty history, no grids |
| BurgersSolver.Solver.Configure | burgersDemo.py:170-177 | after the caller's attribute assignments the settings are exactly the given ones; the frame lets nothing else change |
| BurgersSolver.Solver.Config | solver.py:30-42 | the read-out carries nx, ny, nt unchanged and has non-zero spacings whenever the extents are non-zero |
| BurgersSolver.DeriveSpacing | solver.py:31-32 | dx*(nx-1) == fx, dy*(ny-1) == fy, dt*nu == CFL*dx*dy, a spacing is zero exactly when its extent is, and CFL, nu, fx, fy pass through |
| BurgersSolver.Solver.StampedCells | solver.py:59-61 | the stamped cell rectangle, computed from the anchors and the spacings of the current settings, lies inside the ny x nx grid |
| BurgersSolver.Solver.Initialize | solver.py:44-61 | fresh ny x nx grids, u != v; un and vn all ones; u is initX and v is initY exactly on StampedCells() and 1 elsewhere; x and y are linspace(0, fx, nx) and linspace(0, fy, ny); settings, counter and history untouched |
| BurgersSolver.InitialGrids | solver.py:46-49 | four fresh grids of the given shape: two stamped with initX and initY on the region, two all ones |
| BurgersSolver.Stamped | solver.py:46-47 | a fresh grid that holds x on the region and 1 elsewhere |
| BurgersSolver.Ones | solver.py:46-49 | a fresh rows x cols array whose grid is the constant 1 |
| BurgersSolver.FillSlice | solver.py:59-61 | the slice assignment sets exactly the cells with r0 <= i < r1 and c0 <= j < c1 to x; every other cell keeps its value |
| Indexing.Trunc | solver.py:59-61 | Python int() of a float: the integer r with r <= x < r+1 for x >= 0 and r-1 < x <= r for x < 0 |
| Indexing.SliceBound | solver.py:59-61 | a numpy slice bound of an axis of length n: k if 0 <= k <= n, n if k > n, k+n if -n <= k < 0, 0 below -n |
| Indexing.StampRegion | solver.py:59-61 | the normalised bounds int(yRB/dy):int(yLT/dy) x int(xLT/dx):int(xRB/dx) lie within the grid |
| Indexing.StampRegionOfNonNegativeAnchors | solver.py:59-61 | for positive spacings and non-negative anchors, a cell is stamped iff floor(yRB/dy) <= i < floor(yLT/dy) and floor(xLT/dx) <= j < floor(xRB/dx) |
| Indexing.StampRegionGeometry | solver.py:58-61 | for positive spacings and non-negative anchors, row i is stamped iff yRB < (i+1)*dy <= yLT, and column j iff xLT < (j+1)*dx <= xRB |
| Indexing.FloorBelow | solver.py:59-61 | k < floor(a/d) iff (k+1)*d <= a, for d > 0 |
| Indexing.DemoRegion | solver.py:58-61 | the anchors (0.5, 1), (1, 0.5) on 51 x 51 points over [0, 2]^2 stamp rows and columns 12..24 |
| Indexing.DefaultRegion | solver.py:22-23 | the default anchors on the default grid stamp rows and columns 0..24 |
| Indexing.LinspaceEndpoints | solver.py:50-51 | the axis starts at 0, ends at the extent, and consecutive points differ by extent/(n-1) |
| BurgersSolver.Solver.GetCurrentData | solver.py:64-65 | returns the four live grids themselves (aliases) |
| BurgersSolver.Solver.GetSolveData | solver.py:67-68 | returns the history |
| BurgersSolver.Solver.SolveNextStep | solver.py:70-128 | reports completion iff the counter equals nt, and then changes neither the solver nor any grid. Otherwise: un, vn are fresh and hold the old u, v; u, v are NextU/NextV of them; shapes and settings are kept; the counter goes up by 1; exactly one snapshot of the new grids is appended; one snapshot per step is preserved |
| BurgersSolver.Advance | solver.py:81-117 | un, vn are fresh copies of the old u, v; u, v become NextU/NextV of the copies; the dictionary is the snapshot of the new grids |
| BurgersSolver.CopyGrid | solver.py:81-82 | a fresh array with the same shape and contents |
| BurgersSolver.SweepInterior | solver.py:84-102 | each interior cell gets the stencil of the old fields; border cells keep their value |
| BurgersSolver.ClampBorder | solver.py:104-112 | every border cell becomes 1; interior cells keep their value |
| BurgersSolver.StepMatches | solver.py:84-112 | an array with 1 on the border and the stencil inside equals Next of the copies' grids |
| BurgersSolver.TakeSnapshot | solver.py:114-117 | the loop's dictionary equals Snapshot of the grids |
| Snapshots.SnapshotLayout | solver.py:114-117 | with non-zero spacings, the snapshot has exactly nx*ny entries: key (i*dx, j*dy) maps to (U[i][j], V[i][j]) for every 0 <= i < nx, 0 <= j < ny, and no other key occurs |
| Snapshots.FilledKeys | solver.py:114-117 | the keys after visiting (i, j) are exactly the coordinates of the index pairs visited before it |
| Snapshots.Unvisited | solver.py:115-117 | with non-zero spacings, no index pair not yet visited has its key present |
| Snapshots.KeyIsNew | solver.py:117 | with non-zero spacings, the key written at (i, j) is not already present |
| Snapshots.FilledSize | solver.py:115-117 | with non-zero spacings, the partial dictionary has i*m + j entries |
| Snapshots.FilledValues | solver.py:115-117 | with non-zero spacings, every visited pair's key maps to that pair's own velocities |
| Snapshots.ScaleInjective | solver.py:117 | a non-zero spacing sends distinct indices to distinct coordinates |
| Stencil.BorderIsOne | solver.py:104-112 | after a step every border cell of u and v is 1, whatever the old fields |
| Stencil.NextIsLocal | solver.py:84-102 | an interior cell's new value depends only on the old five-point neighbourhood and the old velocities at the cell |
| Stencil.UpdateOfConstant | solver.py:84-102 | the update leaves a constant neighbourhood unchanged for any velocities |
| Stencil.UniformFieldIsFixed | solver.py:84-112 | u = v = 1 everywhere is a fixed point of the step |
| BurgersSolver.SolveAll | burgersDemo.py:211-212 | from a counter at most nt, the loop ends with the counter at nt; the old history is a prefix of the new one and it grows by nt minus the old counter |
| BurgersSolver.StepAfterCompletion | solver.py:73-75 | once the counter equals nt, any number of further calls all report completion and change neither the solver nor its grids |
| BurgersSolver.StartSolve | burgersDemo.py:165-185 | a fresh solver configured with the given settings, initialized and run to completion: counter nt, exactly nt snapshots, and fresh grids u, v the caller may go on using |

## Left out

- Floating point: the stencil, the spacings and the keys are computed over
  exact reals. IEEE rounding, overflow, NaN, and dictionary keys that collide only
  through rounding are not modelled.
- Division by zero: Python raises ZeroDivisionError. In the model it becomes a precondition:
  - `nx != 1`, `ny != 1` and `nu != 0` for the configuration read-out;
  - `fx != 0` and `fy != 0` where `initialize` and a step divide by dx and dy.

  The source does no validation of its own, and no error result is invented.
- Exceptions numpy would raise: a negative grid size (for `numpy.ones`) and an
  empty grid (for the border clamp) are excluded by preconditions.
  The snapshot loop's IndexError when `nx != ny` is excluded the same way.
- BurgersSolver.SolveNextStep: requires `nx == ny` and `nx >= 2` on the non-terminal path, so
  the IndexError raised part-way through a step (after `u` and `v` were already updated) is not modelled.
- BurgersSolver.SolveAll: requires the counter to be at most nt. Completion is tested with `==`,
  so from a counter past nt (or a negative nt) the source loop never ends. `SolveNextStep`'s
  contract exhibits this: it reports completion only when the counter equals nt.
- The history list is a `seq` value. Python's `retData` is one list object that `solve_next_step`
  mutates and `get_solve_data` hands out, so the aliasing of that list is not modelled.
- The arrays `u` and `v` are updated in place and stay the same objects across a step. This is
  modelled: same references, `modifies` on them. `un` and `vn` are fresh arrays each step.
- Before `initialize` the Python solver has no `u`, `v`, `un`, `vn` attributes, so `get_current_data`
  and a non-terminal `solve_next_step` raise AttributeError. The model instead returns `null` grids from
  `GetCurrentData` and excludes that step with the precondition `Ready()`.
- The snapshot is a `map`, so the insertion order of the Python dict is not modelled. Its contents
  (keys and values) are modelled in full.
- The axes `x` and `y` do not exist before `initialize` in Python. In the model they are empty sequences until then.
- `print` diagnostics (`solver.py:62`, `74`, `125`), the matplotlib set-up and the `__main__`
  demonstration loop in `solver.py` are left out, because they do not affect the solver state.
- The residual curve (`burgersDemo.py:213-218`) is left out, because it uses floating-point `sqrt`/`log` on the grids.
- The web interface, its state callbacks and plotting (`burgersDemo.py`, `myTrame.py`,
  `final_solution.py`) and the VTK conversion (`VTKutils.py`) are left out. They are
  user-interface and foreign-library code; `Configure`, `SolveAll` and `StartSolve` model
  only how they drive the solver.
- Python's `int(state.nx)` / `float(state.fx)` conversions in the web interface are left out.
  The settings arrive already typed.
