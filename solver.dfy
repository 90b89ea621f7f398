/** The Burgers solver: configuration fields, the grids u, v (current) and un, vn
    (previous step) as ny-by-nx arrays, the step counter and the history of
    per-step snapshots. */
module BurgersSolver {
  import opened Fields
  import opened Stencil
  import opened Snapshots
  import opened Indexing

  /** The configuration a caller may set before initialization. */
  datatype Settings = Settings(
    nx: int, ny: int, fx: real, fy: real, initX: real, initY: real, nu: real,
    xAnchorLT: real, yAnchorLT: real, xAnchorRB: real, yAnchorRB: real,
    cfl: real, nt: int)

  /** The configuration read-out of the given settings: grid spacings
      dx = fx / (nx - 1), dy = fy / (ny - 1) and time step dt = CFL * dx * dy / nu. */
  function Derive(s: Settings): (c: StepConfig)
    requires s.nx != 1 && s.ny != 1 && s.nu != 0.0
    ensures c.nx == s.nx && c.ny == s.ny && c.nt == s.nt
    ensures s.fx != 0.0 ==> c.dx != 0.0
    ensures s.fy != 0.0 ==> c.dy != 0.0
  {
    var dx := s.fx / (s.nx - 1) as real;
    var dy := s.fy / (s.ny - 1) as real;
    StepConfig(s.nx, s.ny, s.nt, dx, dy, s.cfl, s.nu, s.cfl * dx * dy / s.nu, s.fx, s.fy)
  }

  /** A fresh copy of a grid (numpy's copy()). */
  method CopyGrid(a: array2<real>) returns (b: array2<real>)
    ensures fresh(b) && b.Length0 == a.Length0 && b.Length1 == a.Length1
    ensures ToGrid(b) == ToGrid(a)
  {
    b := new real[a.Length0, a.Length1]((i, j) requires 0 <= i < a.Length0 && 0 <= j < a.Length1 reads a => a[i, j]);
    GridExt(ToGrid(b), ToGrid(a), a.Length0, a.Length1);
  }

  /** numpy.ones((rows, cols)). */
  method Ones(rows: nat, cols: nat) returns (a: array2<real>)
    ensures fresh(a) && a.Length0 == rows && a.Length1 == cols
    ensures ToGrid(a) == Constant(rows, cols, 1.0)
  {
    a := new real[rows, cols]((_, _) => 1.0);
    GridExt(ToGrid(a), Constant(rows, cols, 1.0), rows, cols);
  }

  /** A grid of ones with x stamped on region r (the initial condition). */
  method Stamped(rows: nat, cols: nat, r: Region, x: real) returns (a: array2<real>)
    requires r.rowHi <= rows && r.colHi <= cols
    ensures fresh(a) && a.Length0 == rows && a.Length1 == cols
    ensures forall i, j :: 0 <= i < rows && 0 <= j < cols ==> a[i, j] == if r.Contains(i, j) then x else 1.0
  {
    a := Ones(rows, cols);
    FillSlice(a, r.rowLo, r.rowHi, r.colLo, r.colHi, x);
  }

  /** The four grids of a fresh initialization: u and v stamped with initX and
      initY on r, un and vn all ones. */
  method InitialGrids(rows: nat, cols: nat, r: Region, initX: real, initY: real)
    returns (u: array2<real>, v: array2<real>, un: array2<real>, vn: array2<real>)
    requires r.rowHi <= rows && r.colHi <= cols
    ensures fresh(u) && fresh(v) && fresh(un) && fresh(vn) && u != v
    ensures u.Length0 == rows && u.Length1 == cols && v.Length0 == rows && v.Length1 == cols
    ensures un.Length0 == rows && un.Length1 == cols && vn.Length0 == rows && vn.Length1 == cols
    ensures ToGrid(un) == Constant(rows, cols, 1.0) && ToGrid(vn) == Constant(rows, cols, 1.0)
    ensures forall i, j :: 0 <= i < rows && 0 <= j < cols ==>
      u[i, j] == (if r.Contains(i, j) then initX else 1.0) &&
      v[i, j] == (if r.Contains(i, j) then initY else 1.0)
  {
    u := Stamped(rows, cols, r, initX);
    v := Stamped(rows, cols, r, initY);
    un := Ones(rows, cols);
    vn := Ones(rows, cols);
  }

  /** The slice assignment a[r0:r1, c0:c1] = x with normalised bounds; an empty
      range (r0 >= r1 or c0 >= c1) leaves a unchanged. */
  method FillSlice(a: array2<real>, r0: nat, r1: nat, c0: nat, c1: nat, x: real)
    requires r1 <= a.Length0 && c1 <= a.Length1
    modifies a
    ensures forall i, j :: 0 <= i < a.Length0 && 0 <= j < a.Length1 ==>
      a[i, j] == if r0 <= i < r1 && c0 <= j < c1 then x else old(a[i, j])
  {
    var i := r0;
    while i < r1
      invariant r0 <= i <= if r1 < r0 then r0 else r1
      invariant forall r, s :: 0 <= r < a.Length0 && 0 <= s < a.Length1 ==>
        a[r, s] == if r0 <= r < i && c0 <= s < c1 then x else old(a[r, s])
    {
      var j := c0;
      while j < c1
        invariant c0 <= j <= if c1 < c0 then c0 else c1
        invariant forall r, s :: 0 <= r < a.Length0 && 0 <= s < a.Length1 ==>
          a[r, s] == if (r0 <= r < i && c0 <= s < c1) || (r == i && c0 <= s < j) then x else old(a[r, s])
      {
        a[i, j] := x;
        j := j + 1;
      }
      i := i + 1;
    }
  }

  /** The stencil at interior cell (i, j) of arrays q, un, vn of one shape. */
  function StencilAt(c: StepConfig, q: array2<real>, un: array2<real>, vn: array2<real>, i: int, j: int): (r: real)
    reads q, un, vn
    requires un.Length0 == q.Length0 && vn.Length0 == q.Length0
    requires un.Length1 == q.Length1 && vn.Length1 == q.Length1
    requires 0 < i < q.Length0 - 1 && 0 < j < q.Length1 - 1
    requires c.dx != 0.0 && c.dy != 0.0
  {
    Update(c, q[i, j], q[i, j - 1], q[i, j + 1], q[i - 1, j], q[i + 1, j], un[i, j], vn[i, j])
  }

  /** The interior assignment a[1:-1, 1:-1] = <stencil>, reading the transported
      field q and the old velocities un, vn; the border of a is not touched. */
  method SweepInterior(a: array2<real>, q: array2<real>, un: array2<real>, vn: array2<real>, c: StepConfig)
    requires a != q && a != un && a != vn
    requires q.Length0 == a.Length0 && un.Length0 == a.Length0 && vn.Length0 == a.Length0
    requires q.Length1 == a.Length1 && un.Length1 == a.Length1 && vn.Length1 == a.Length1
    requires c.dx != 0.0 && c.dy != 0.0
    modifies a
    ensures forall i, j :: 0 <= i < a.Length0 && 0 <= j < a.Length1 ==>
      a[i, j] == if OnBorder(i, j, a.Length0, a.Length1) then old(a[i, j]) else StencilAt(c, q, un, vn, i, j)
  {
    var rows, cols := a.Length0, a.Length1;
    var i := 1;
    while i < rows - 1
      invariant 1 <= i <= if rows < 2 then 1 else rows - 1
      invariant forall r, s :: 0 <= r < rows && 0 <= s < cols ==>
        a[r, s] == if OnBorder(r, s, rows, cols) || r >= i then old(a[r, s]) else StencilAt(c, q, un, vn, r, s)
    {
      var j := 1;
      while j < cols - 1
        invariant 1 <= j <= if cols < 2 then 1 else cols - 1
        invariant forall r, s :: 0 <= r < rows && 0 <= s < cols ==>
          a[r, s] == if OnBorder(r, s, rows, cols) || r > i || (r == i && s >= j) then old(a[r, s])
                     else StencilAt(c, q, un, vn, r, s)
      {
        a[i, j] := StencilAt(c, q, un, vn, i, j);
        j := j + 1;
      }
      i := i + 1;
    }
  }

  /** The Dirichlet clamp a[0, :] = 1; a[-1, :] = 1; a[:, 0] = 1; a[:, -1] = 1. */
  method ClampBorder(a: array2<real>)
    requires a.Length0 >= 1 && a.Length1 >= 1
    modifies a
    ensures forall i, j :: 0 <= i < a.Length0 && 0 <= j < a.Length1 ==>
      a[i, j] == if OnBorder(i, j, a.Length0, a.Length1) then 1.0 else old(a[i, j])
  {
    var rows, cols := a.Length0, a.Length1;
    FillSlice(a, 0, 1, 0, cols, 1.0);
    FillSlice(a, rows - 1, rows, 0, cols, 1.0);
    FillSlice(a, 0, rows, 0, 1, 1.0);
    FillSlice(a, 0, rows, cols - 1, cols, 1.0);
  }

  /** The snapshot loop `for i in range(nx): for j in range(ny):
      dataDict[(i*dx, j*dy)] = (u[i, j], v[i, j])`; i indexes rows, so the loop
      stays in bounds only when nx <= rows and ny <= cols. */
  method TakeSnapshot(u: array2<real>, v: array2<real>, nx: nat, ny: nat, dx: real, dy: real)
    returns (m: DataDict)
    requires v.Length0 == u.Length0 && v.Length1 == u.Length1
    requires nx <= u.Length0 && ny <= u.Length1
    ensures m == Snapshot(ToGrid(u), ToGrid(v), nx, ny, dx, dy)
  {
    ghost var U, V := ToGrid(u), ToGrid(v);
    m := map[];
    var i := 0;
    while i < nx
      invariant 0 <= i <= nx
      invariant m == Filled(U, V, dx, dy, ny, i, 0)
    {
      var j := 0;
      while j < ny
        invariant 0 <= j <= ny
        invariant m == Filled(U, V, dx, dy, ny, i, j)
      {
        m := m[Key(i, j, dx, dy) := (u[i, j], v[i, j])];
        j := j + 1;
      }
      i := i + 1;
    }
  }

  /** After the sweep and the clamp, the array a holds Next of the copies. */
  lemma StepMatches(a: array2<real>, q: array2<real>, un: array2<real>, vn: array2<real>, c: StepConfig)
    requires q.Length0 == a.Length0 && un.Length0 == a.Length0 && vn.Length0 == a.Length0
    requires q.Length1 == a.Length1 && un.Length1 == a.Length1 && vn.Length1 == a.Length1
    requires c.dx != 0.0 && c.dy != 0.0
    requires forall i, j :: 0 <= i < a.Length0 && 0 <= j < a.Length1 ==>
      a[i, j] == if OnBorder(i, j, a.Length0, a.Length1) then 1.0 else StencilAt(c, q, un, vn, i, j)
    ensures ToGrid(a) == Next(ToGrid(q), ToGrid(un), ToGrid(vn), a.Length0, a.Length1, c)
  {
    var rows, cols := a.Length0, a.Length1;
    var A, N := ToGrid(a), Next(ToGrid(q), ToGrid(un), ToGrid(vn), rows, cols, c);
    forall i, j | 0 <= i < rows && 0 <= j < cols
      ensures A[i][j] == N[i][j]
    {
      NextAt(ToGrid(q), ToGrid(un), ToGrid(vn), rows, cols, c, i, j);
      if !OnBorder(i, j, rows, cols) {
        StencilAtIsUpdate(c, q, un, vn, i, j);
      }
    }
    GridExt(A, N, rows, cols);
  }

  /** StencilAt on arrays is Update on their grids. */
  lemma StencilAtIsUpdate(c: StepConfig, q: array2<real>, un: array2<real>, vn: array2<real>, i: nat, j: nat)
    requires un.Length0 == q.Length0 && vn.Length0 == q.Length0
    requires un.Length1 == q.Length1 && vn.Length1 == q.Length1
    requires 0 < i < q.Length0 - 1 && 0 < j < q.Length1 - 1
    requires c.dx != 0.0 && c.dy != 0.0
    ensures StencilAt(c, q, un, vn, i, j) ==
      Update(c, ToGrid(q)[i][j], ToGrid(q)[i][j - 1], ToGrid(q)[i][j + 1], ToGrid(q)[i - 1][j],
             ToGrid(q)[i + 1][j], ToGrid(un)[i][j], ToGrid(vn)[i][j])
  {
    var Q, UN, VN := ToGrid(q), ToGrid(un), ToGrid(vn);
    assert Q[i][j] == q[i, j] && Q[i][j - 1] == q[i, j - 1] && Q[i][j + 1] == q[i, j + 1];
    assert Q[i - 1][j] == q[i - 1, j] && Q[i + 1][j] == q[i + 1, j];
    assert UN[i][j] == un[i, j] && VN[i][j] == vn[i, j];
  }

  /** The body of one step on the grids u and v: copy them into fresh un, vn,
      sweep the interior of u and of v, clamp both borders, take the snapshot. */
  method Advance(u: array2<real>, v: array2<real>, c: StepConfig, nx: nat, ny: nat)
    returns (un: array2<real>, vn: array2<real>, dataDict: DataDict)
    requires u != v && v.Length0 == u.Length0 && v.Length1 == u.Length1
    requires u.Length0 >= 1 && u.Length1 >= 1
    requires nx <= u.Length0 && ny <= u.Length1
    requires c.dx != 0.0 && c.dy != 0.0
    modifies u, v
    ensures fresh(un) && fresh(vn)
    ensures un.Length0 == u.Length0 && un.Length1 == u.Length1
    ensures vn.Length0 == u.Length0 && vn.Length1 == u.Length1
    ensures ToGrid(un) == old(ToGrid(u)) && ToGrid(vn) == old(ToGrid(v))
    ensures ToGrid(u) == NextU(ToGrid(un), ToGrid(vn), u.Length0, u.Length1, c)
    ensures ToGrid(v) == NextV(ToGrid(un), ToGrid(vn), u.Length0, u.Length1, c)
    ensures dataDict == Snapshot(ToGrid(u), ToGrid(v), nx, ny, c.dx, c.dy)
  {
    un := CopyGrid(u);
    vn := CopyGrid(v);
    SweepInterior(u, un, un, vn, c);
    SweepInterior(v, vn, un, vn, c);
    ClampBorder(u);
    ClampBorder(v);
    StepMatches(u, un, un, vn, c);
    StepMatches(v, vn, un, vn, c);
    dataDict := TakeSnapshot(u, v, nx, ny, c.dx, c.dy);
  }

  class Solver {
    // configuration, set by callers between construction and initialization
    var nx: int
    var ny: int
    var fx: real
    var fy: real
    var initX: real
    var initY: real
    var nu: real
    var xAnchorLT: real
    var yAnchorLT: real
    var xAnchorRB: real
    var yAnchorRB: real
    var cfl: real
    var nt: int
    // time-stepping state
    var currentTimeStep: int
    var retData: seq<DataDict>
    // fields, absent (null) until initialization
    var u: array2?<real>
    var v: array2?<real>
    var un: array2?<real>
    var vn: array2?<real>
    // coordinate axes
    var x: seq<real>
    var y: seq<real>

    function CurrentSettings(): (s: Settings)
      reads this
    {
      Settings(nx, ny, fx, fy, initX, initY, nu, xAnchorLT, yAnchorLT, xAnchorRB, yAnchorRB, cfl, nt)
    }

    /** The grids exist, have shape ny x nx, and u and v are distinct arrays. */
    ghost predicate Ready()
      reads this
    {
      nx >= 0 && ny >= 0 &&
      u != null && v != null && un != null && vn != null &&
      u.Length0 == ny && u.Length1 == nx && v.Length0 == ny && v.Length1 == nx &&
      un.Length0 == ny && un.Length1 == nx && vn.Length0 == ny && vn.Length1 == nx &&
      u != v
    }

    /** The history holds one snapshot per completed step. */
    ghost predicate OneSnapshotPerStep()
      reads this
    {
      |retData| == currentTimeStep
    }

    /** The default configuration, an empty history and no grids. */
    constructor ()
      ensures CurrentSettings() == Settings(51, 51, 2.0, 2.0, 2.0, 2.0, 0.01, 0.0, 1.0, 1.0, 0.0, 0.0009, 1000)
      ensures currentTimeStep == 0 && retData == [] && OneSnapshotPerStep()
      ensures u == null && v == null && un == null && vn == null
    {
      nx, ny := 51, 51;
      fx, fy := 2.0, 2.0;
      initX, initY := 2.0, 2.0;
      nu := 0.01;
      xAnchorLT, yAnchorLT := 0.0, 1.0;
      xAnchorRB, yAnchorRB := 1.0, 0.0;
      cfl := 0.0009;
      nt := 1000;
      currentTimeStep := 0;
      retData := [];
      u, v, un, vn := null, null, null, null;
      x, y := [], [];
    }

    /** The caller's attribute assignments between construction and
        initialization: every setting is overwritten, nothing else changes. */
    method Configure(cfg: Settings)
      modifies this`nx, this`ny, this`fx, this`fy, this`initX, this`initY, this`nu
      modifies this`xAnchorLT, this`yAnchorLT, this`xAnchorRB, this`yAnchorRB, this`cfl, this`nt
      ensures CurrentSettings() == cfg
    {
      nx, ny := cfg.nx, cfg.ny;
      fx, fy := cfg.fx, cfg.fy;
      initX, initY := cfg.initX, cfg.initY;
      nu := cfg.nu;
      xAnchorLT, yAnchorLT := cfg.xAnchorLT, cfg.yAnchorLT;
      xAnchorRB, yAnchorRB := cfg.xAnchorRB, cfg.yAnchorRB;
      cfl := cfg.cfl;
      nt := cfg.nt;
    }

    /** The derived configuration of the current settings (spacings dx, dy and
        time step dt); DeriveSpacing states how they are derived. */
    function Config(): (c: StepConfig)
      reads this
      requires nx != 1 && ny != 1 && nu != 0.0
      ensures c.nx == nx && c.ny == ny && c.nt == nt
      ensures fx != 0.0 ==> c.dx != 0.0
      ensures fy != 0.0 ==> c.dy != 0.0
    {
      Derive(CurrentSettings())
    }

    /** The cells the initial condition raises to (initX, initY). */
    function StampedCells(): (r: Region)
      reads this
      requires nx != 1 && ny != 1 && nu != 0.0 && fx != 0.0 && fy != 0.0
      requires nx >= 0 && ny >= 0
      ensures r.rowHi <= ny && r.colHi <= nx
    {
      StampRegion(Config().dx, Config().dy, xAnchorLT, yAnchorLT, xAnchorRB, yAnchorRB, ny, nx)
    }

    /** Allocates u, v, un, vn as ny x nx grids of ones, builds the coordinate
        axes, and stamps initX into u and initY into v on StampedCells(). The step
        counter and the history are left as they are. */
    method Initialize()
      requires nx != 1 && ny != 1 && nu != 0.0
      requires nx >= 0 && ny >= 0
      requires fx != 0.0 && fy != 0.0
      modifies this`u, this`v, this`un, this`vn, this`x, this`y
      ensures Ready() && fresh(u) && fresh(v) && fresh(un) && fresh(vn)
      ensures x == Linspace(fx, nx) && y == Linspace(fy, ny)
      ensures ToGrid(un) == Constant(ny, nx, 1.0) && ToGrid(vn) == Constant(ny, nx, 1.0)
      ensures var r := old(StampedCells());
        forall i, j :: 0 <= i < ny && 0 <= j < nx ==>
          u[i, j] == (if r.Contains(i, j) then initX else 1.0) &&
          v[i, j] == (if r.Contains(i, j) then initY else 1.0)
    {
      var r := StampedCells();
      var u', v', un', vn' := InitialGrids(ny, nx, r, initX, initY);
      var x', y' := Linspace(fx, nx), Linspace(fy, ny);
      u, v, un, vn, x, y := u', v', un', vn', x', y';
    }

    /** The live grids (aliases, not copies). */
    method GetCurrentData() returns (u': array2?<real>, v': array2?<real>, un': array2?<real>, vn': array2?<real>)
      ensures u' == u && v' == v && un' == un && vn' == vn
    {
      u', v', un', vn' := u, v, un, vn;
    }

    /** The history of snapshots, one per completed step, oldest first. */
    method GetSolveData() returns (r: seq<DataDict>)
      ensures r == retData
    {
      r := retData;
    }

    /** Reports completion when the counter equals nt, changing nothing; otherwise
        performs one step: un, vn become copies of the old u, v; u and v get the
        stencil in the interior and 1 on the border; the snapshot of the new grids
        is appended to the history and the counter goes up by one. */
    method SolveNextStep() returns (done: bool)
      requires nx != 1 && ny != 1 && nu != 0.0
      requires currentTimeStep != nt ==> Ready() && nx == ny && nx >= 2 && fx != 0.0 && fy != 0.0
      modifies this, u, v
      ensures done <==> old(currentTimeStep) == nt
      ensures done ==> unchanged(this)
      ensures done ==> (u != null ==> unchanged(u)) && (v != null ==> unchanged(v))
      ensures done ==> (un != null ==> unchanged(un)) && (vn != null ==> unchanged(vn))
      ensures !done ==> Ready() && u == old(u) && v == old(v) && fresh(un) && fresh(vn)
      ensures !done ==> CurrentSettings() == old(CurrentSettings()) && x == old(x) && y == old(y)
      ensures !done ==> currentTimeStep == old(currentTimeStep) + 1
      ensures old(OneSnapshotPerStep()) ==> OneSnapshotPerStep()
      ensures !done ==> ToGrid(un) == old(ToGrid(u)) && ToGrid(vn) == old(ToGrid(v))
      ensures !done ==> ToGrid(u) == NextU(ToGrid(un), ToGrid(vn), ny, nx, Config())
      ensures !done ==> ToGrid(v) == NextV(ToGrid(un), ToGrid(vn), ny, nx, Config())
      ensures !done ==> retData == old(retData) + [Snapshot(ToGrid(u), ToGrid(v), nx, ny, Config().dx, Config().dy)]
    {
      var c := Config();
      if currentTimeStep == c.nt {
        return true;
      }
      var un', vn', dataDict := Advance(u, v, c, nx, ny);
      retData := retData + [dataDict];
      un, vn := un', vn';
      currentTimeStep := currentTimeStep + 1;
      assert Config() == c;
      done := false;
    }

  }

  /** The spacings divide the extents into nx-1 and ny-1 equal intervals, the
      time step satisfies dt * nu == CFL * dx * dy, and a spacing is zero exactly
      when its extent is. */
  lemma DeriveSpacing(s: Settings)
    requires s.nx != 1 && s.ny != 1 && s.nu != 0.0
    ensures Derive(s).cfl == s.cfl && Derive(s).nu == s.nu && Derive(s).fx == s.fx && Derive(s).fy == s.fy
    ensures Derive(s).dx * (s.nx - 1) as real == s.fx && Derive(s).dy * (s.ny - 1) as real == s.fy
    ensures Derive(s).dt * s.nu == s.cfl * Derive(s).dx * Derive(s).dy
    ensures Derive(s).dx == 0.0 <==> s.fx == 0.0
    ensures Derive(s).dy == 0.0 <==> s.fy == 0.0
  {
  }

  /** The driving loop `while not solver.solve_next_step(): ...`: from a counter
      at most nt it ends with the counter at nt and one new snapshot per step. */
  method SolveAll(s: Solver)
    requires s.nx != 1 && s.ny != 1 && s.nu != 0.0
    requires s.Ready() && s.nx == s.ny && s.nx >= 2 && s.fx != 0.0 && s.fy != 0.0
    requires s.currentTimeStep <= s.nt
    modifies s, s.u, s.v
    ensures s.Ready() && s.u == old(s.u) && s.v == old(s.v) && s.CurrentSettings() == old(s.CurrentSettings())
    ensures s.currentTimeStep == s.nt
    ensures |s.retData| == |old(s.retData)| + (s.nt - old(s.currentTimeStep))
    ensures s.retData[..|old(s.retData)|] == old(s.retData)
  {
    var done := s.SolveNextStep();
    while !done
      invariant s.Ready() && s.u == old(s.u) && s.v == old(s.v) && s.CurrentSettings() == old(s.CurrentSettings())
      invariant s.currentTimeStep <= s.nt && (done ==> s.currentTimeStep == s.nt)
      invariant |s.retData| == |old(s.retData)| + (s.currentTimeStep - old(s.currentTimeStep))
      invariant s.retData[..|old(s.retData)|] == old(s.retData)
      decreases s.nt - s.currentTimeStep + (if done then 0 else 1)
    {
      done := s.SolveNextStep();
    }
  }

  /** Once the counter has reached nt, any number k of further calls each
      report completion and leave the solver and its grids as they were. */
  method StepAfterCompletion(s: Solver, k: nat) returns (results: seq<bool>)
    requires s.nx != 1 && s.ny != 1 && s.nu != 0.0
    requires s.currentTimeStep == s.nt
    modifies s, s.u, s.v
    ensures |results| == k && forall n :: 0 <= n < k ==> results[n]
    ensures unchanged(s)
    ensures (s.u != null ==> unchanged(s.u)) && (s.v != null ==> unchanged(s.v))
    ensures (s.un != null ==> unchanged(s.un)) && (s.vn != null ==> unchanged(s.vn))
  {
    results := [];
    while |results| < k
      invariant |results| <= k && forall n :: 0 <= n < |results| ==> results[n]
      invariant unchanged(s)
      invariant (s.u != null ==> unchanged(s.u)) && (s.v != null ==> unchanged(s.v))
      invariant (s.un != null ==> unchanged(s.un)) && (s.vn != null ==> unchanged(s.vn))
    {
      var done := s.SolveNextStep();
      results := results + [done];
    }
  }

  /** A fresh run from the caller's settings: construct, configure, initialize
      and step to completion. From a fresh solver the history holds exactly one
      snapshot per completed step. */
  method StartSolve(cfg: Settings) returns (s: Solver)
    requires cfg.nx == cfg.ny && cfg.nx >= 2 && cfg.nu != 0.0 && cfg.fx != 0.0 && cfg.fy != 0.0
    requires cfg.nt >= 0
    ensures fresh(s) && fresh(s.u) && fresh(s.v) && s.Ready() && s.CurrentSettings() == cfg
    ensures s.currentTimeStep == cfg.nt && |s.retData| == cfg.nt && s.OneSnapshotPerStep()
  {
    s := new Solver();
    s.Configure(cfg);
    s.Initialize();
    SolveAll(s);
  }
}
