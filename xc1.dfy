/** The simulation script: it builds the grid, fills the step-shaped initial field,
    picks the time step at the stability limit and runs the FTCS loop in place on the
    field. The global parameters of the script are the parameters of Simulate; Script
    is the run with the script's own values. */
module Xc1 {
  import opened FtcsSpec

  /** The initial field: a zero array as long as the grid, then one masked pass that sets
      the points on the left half (x <= Lx/2) to cLeft and one that sets the points on the
      right half (x > Lx/2) to cRight. */
  method InitField(x: seq<real>, Lx: real, cLeft: real, cRight: real) returns (C: array<real>)
    ensures fresh(C)
    ensures C[..] == InitialProfile(x, Lx, cLeft, cRight)
  {
    C := new real[|x|](_ => 0.0);
    for i := 0 to |x|
      invariant forall j :: 0 <= j < i ==> C[j] == (if OnLeftHalf(x[j], Lx) then cLeft else 0.0)
      invariant forall j :: i <= j < |x| ==> C[j] == 0.0
    {
      if x[i] <= Lx / 2.0 {
        C[i] := cLeft;
      }
    }
    for i := 0 to |x|
      invariant forall j :: 0 <= j < i ==> C[j] == (if OnLeftHalf(x[j], Lx) then cLeft else cRight)
      invariant forall j :: i <= j < |x| ==> C[j] == (if OnLeftHalf(x[j], Lx) then cLeft else 0.0)
    {
      if x[i] > Lx / 2.0 {
        C[i] := cRight;
      }
    }
  }

  /** One time step on the interior slice: first the increments r times the discrete
      second difference are computed into a temporary array (the whole right-hand side is
      evaluated before the in-place addition), then they are added to the interior points.
      Every increment therefore comes from pre-step values; the two ends are never
      written. */
  method StepInPlace(C: array<real>, r: real)
    modifies C
    ensures C[..] == Step(old(C[..]), r)
  {
    var n := C.Length;
    var m := if n >= 2 then n - 2 else 0;  // length of the interior slice C[1:-1]
    var inc := new real[m];
    for k := 0 to m
      modifies inc
      invariant forall j :: 0 <= j < k ==>
        inc[j] == r * (old(C[j]) - 2.0 * old(C[j + 1]) + old(C[j + 2]))
    {
      inc[k] := r * (C[k] - 2.0 * C[k + 1] + C[k + 2]);
    }
    for k := 0 to m
      modifies C
      invariant forall j :: 0 <= j < k ==> C[j + 1] == old(C[j + 1]) + inc[j]
      invariant forall j :: k + 1 <= j < n ==> C[j] == old(C[j])
      invariant n > 0 ==> C[0] == old(C[0])
    {
      C[k + 1] := C[k + 1] + inc[k];
    }
    forall i | 0 <= i < n
      ensures C[i] == Step(old(C[..]), r)[i]
    {
      if 0 < i < n - 1 {
        assert C[i] == old(C[i]) + inc[i - 1];
      }
    }
  }

  /** The time loop `for t in range(0, nt)`: exactly Iterations(nt) steps, each with the
      diffusion number D*dt/dx^2. */
  method Integrate(C: array<real>, D: real, dt: real, dx: real, nt: int)
    requires dx > 0.0
    modifies C
    ensures C[..] == Run(old(C[..]), Coefficient(D, dt, dx), Iterations(nt))
  {
    ghost var c0 := C[..];
    var r := Coefficient(D, dt, dx);
    var t := 0;
    while t < nt
      invariant 0 <= t <= Iterations(nt)
      invariant C.Length == |c0|
      invariant C[..] == Run(c0, r, t)
    {
      StepInPlace(C, r);
      t := t + 1;
    }
    assert t == Iterations(nt);
  }

  /** The whole script with its parameters lifted: the grid arange(0, Lx, dx), the step
      initial field, dt = 0.5*dx^2/D and nt steps. The returned field is the spec run of
      the initial profile with r = 1/2, its ends are the initial end values, it stays
      between the two plateau values and, for a high-left step, it stays non-increasing. */
  method Simulate(D: real, Lx: real, dx: real, cLeft: real, cRight: real, nt: int)
    returns (x: seq<real>, dt: real, C: array<real>)
    requires D > 0.0 && Lx > 0.0 && dx > 0.0
    ensures x == Grid(Lx, dx)
    ensures dt > 0.0 && Coefficient(D, dt, dx) == 0.5
    ensures C.Length == |x| >= 1
    ensures C[..] == Run(InitialProfile(x, Lx, cLeft, cRight), 0.5, Iterations(nt))
    ensures C[0] == cLeft
    ensures C[C.Length - 1] == if OnLeftHalf(x[|x| - 1], Lx) then cLeft else cRight
    ensures |x| >= 3 ==> C[C.Length - 1] == cRight
    ensures Within(C[..], Min(cLeft, cRight), Max(cLeft, cRight))
    ensures cRight <= cLeft ==> NonIncreasing(C[..])
  {
    x := Grid(Lx, dx);
    C := InitField(x, Lx, cLeft, cRight);
    dt := StableTimeStep(D, dx);
    Integrate(C, D, dt, dx, nt);

    ghost var c0 := InitialProfile(x, Lx, cLeft, cRight);
    if |x| >= 3 {
      LastPointRight(Lx, dx);
    }
    RunWithin(c0, 0.5, Iterations(nt), Min(cLeft, cRight), Max(cLeft, cRight));
    if cRight <= cLeft {
      GridIncreasing(Lx, dx);
      InitialProfileNonIncreasing(x, Lx, cLeft, cRight);
      RunNonIncreasing(c0, 0.5, Iterations(nt));
    }
  }

  /** The script's grid: 600 points, and the midpoint x = 150 (index 300) is a grid point
      that belongs to the left plateau while index 301 belongs to the right one. */
  lemma ScriptGrid()
    ensures GridSize(300.0, 0.5) == 600
    ensures Grid(300.0, 0.5)[300] == 150.0 && Grid(300.0, 0.5)[301] == 150.5
    ensures InitialProfile(Grid(300.0, 0.5), 300.0, 500.0, 0.0)[300] == 500.0
    ensures InitialProfile(Grid(300.0, 0.5), 300.0, 500.0, 0.0)[301] == 0.0
    ensures StableTimeStep(100.0, 0.5) == 0.00125
  {
  }

  /** The script's run: D = 100, Lx = 300, dx = 0.5, C_left = 500, C_right = 0,
      nt = 5000. */
  method Script() returns (x: seq<real>, dt: real, C: array<real>)
    ensures x == Grid(300.0, 0.5)
    ensures |x| == 600 && C.Length == 600
    ensures dt == 0.00125
    ensures C[..] == Run(InitialProfile(x, 300.0, 500.0, 0.0), 0.5, 5000)
    ensures C[0] == 500.0 && C[599] == 0.0
    ensures Within(C[..], 0.0, 500.0)
    ensures NonIncreasing(C[..])
  {
    ScriptGrid();
    x, dt, C := Simulate(100.0, 300.0, 0.5, 500.0, 0.0, 5000);
  }
}
