# FTCS diffusion model of XC1.py

XC1.py is a one-dimensional diffusion model. It uses the explicit FTCS (forward-time,
centred-space) scheme

    C[i] <- C[i] + D*dt/dx^2 * (C[i-1] - 2*C[i] + C[i+1])

on the grid `x = arange(0, Lx, dx)`. The initial field is a step: `C_left` on the left
half of the domain, including the midpoint, and `C_right` on the right half. The
integrator runs `nt` time steps in place on the field, always with the time step at the
stability limit `dt = 0.5*dx^2/D`. The two end points are never written, so they act as
fixed (Dirichlet) boundary values.

The project has two modules:

- `FtcsSpec` (`ftcs_spec.dfy`) holds the pure specification and the lemmas about it:
  - the grid (`GridSize`, `Grid`);
  - the step profile (`InitialProfile`);
  - the diffusion number `r = D*dt/dx^2` (`Coefficient`, `StableTimeStep`);
  - one time step as a function of the old field (`Step`);
  - `n` steps (`Run`).
  
  The lemmas cover fixed boundaries, length, composition of runs, the maximum principle
  and preservation of monotonicity for `0 <= r <= 1/2`.
- `Xc1` (`xc1.dfy`) holds the script itself, as imperative Dafny over an `array<real>`:
  - the two masked assignments that fill the initial field (`InitField`);
  - the in-place numpy update, with its right-hand side evaluated into a temporary first
    (`StepInPlace`);
  - the time loop (`Integrate`);
  - the whole run with its global parameters lifted to parameters (`Simulate`);
  - the run with the script's own values: D = 100, Lx = 300, dx = 0.5, C_left = 500,
    C_right = 0, nt = 5000 (`Script`).

  Each method is proved against the specification functions.

Concentrations and coordinates are Dafny `real`s, which are exact rationals.

## Model

| member | source | states |
|---|---|---|
| `FtcsSpec.GridSize` | XC1.py:42-43 | the number of grid points nx is the least n with n*dx >= Lx, so (nx-1)*dx < Lx <= nx*dx and nx >= 1 |
| `FtcsSpec.Grid` | XC1.py:41-43 | the grid has GridSize(Lx, dx) points, point i is i*dx, and every point lies in [0, Lx) |
| `FtcsSpec.GridIncreasing` | XC1.py:42 | the grid is strictly increasing |
| `FtcsSpec.UniformIncreasing` | XC1.py:42 | any sequence of points i*dx with dx > 0, as arange produces, is strictly increasing |
| `FtcsSpec.OnLeftHalf` | XC1.py:54-55 | the left-half mask x <= Lx/2 is the exact complement of the right-half mask x > Lx/2, so each point is set by exactly one of the two masked assignments |
| `FtcsSpec.LastPointRight` | XC1.py:42-55 | on a grid of at least three points the last point x[nx-1] lies right of Lx/2, so it starts at C_right |
| `FtcsSpec.InitialProfile` | XC1.py:51-55 | the step profile has one value per grid point, and every value lies between min(C_left, C_right) and max(C_left, C_right) |
| `FtcsSpec.InitialProfileNonIncreasing` | XC1.py:54-55 | on an increasing grid with C_right <= C_left the initial step is non-increasing |
| `Xc1.InitField` | XC1.py:51-55 | zero-filled array of the grid's length, then two masked passes; the result equals the step profile: C_left where x[i] <= Lx/2, C_right where x[i] > Lx/2 |
| `FtcsSpec.Coefficient` | XC1.py:81 | the diffusion number r = D*dt/dx^2 is the factor that scales dx^2 to D*dt: r*dx^2 = D*dt |
| `FtcsSpec.StableTimeStep` | XC1.py:72 | dt = 0.5*dx^2/D is positive and gives a diffusion number D*dt/dx^2 of exactly 1/2 |
| `FtcsSpec.StableCoefficient` | XC1.py:72 | every 0 < dt <= 0.5*dx^2/D gives 0 < D*dt/dx^2 <= 1/2 |
| `FtcsSpec.StepAsWeightedMean` | XC1.py:16 | the update equals (1-2r)*C[i] + r*C[i-1] + r*C[i+1]; at r = 1/2 it is the mean of the two old neighbours |
| `FtcsSpec.Step` | XC1.py:81 | one update of C[1:-1], each interior value computed from the old field; the step keeps the field's length, C[0] and C[nx-1] |
| `Xc1.StepInPlace` | XC1.py:81 | after the in-place update the array equals Step of its pre-step contents: interior points are computed from old values only, and the ends are untouched |
| `FtcsSpec.StepShortField` | XC1.py:81 | a field of fewer than three points has an empty interior and a step leaves it unchanged |
| `FtcsSpec.StepLocalBounds` | XC1.py:81 | for 0 <= r <= 1/2 a new interior value lies within any bounds of its three old neighbours |
| `FtcsSpec.StepWithin` | XC1.py:81 | for 0 <= r <= 1/2 a step keeps the field within any bounds [lo, hi] that held before it |
| `FtcsSpec.StepAdjacentOrder` | XC1.py:81 | for 0 <= r <= 1/2 two neighbouring interior points of a locally non-increasing field stay ordered |
| `FtcsSpec.StepNonIncreasing` | XC1.py:81 | for 0 <= r <= 1/2 a step keeps a non-increasing field non-increasing |
| `FtcsSpec.Iterations` | XC1.py:80 | the number of iterations of range(0, nt) is the least natural number not below nt: nt itself, or 0 when nt is negative |
| `FtcsSpec.Run` | XC1.py:80-81 | the field after n steps; any number of steps keeps the field's length, C[0] and C[nx-1] |
| `Xc1.Integrate` | XC1.py:80-81 | the loop runs exactly max(nt, 0) steps: the array ends equal to Run(old contents, D*dt/dx^2, max(nt, 0)) |
| `FtcsSpec.RunZero` | XC1.py:80-81 | a loop over range(0, nt) with nt <= 0, including nt = 0, runs no step and leaves the field unchanged |
| `FtcsSpec.RunAdd` | XC1.py:80-81 | n + m steps equal m steps applied to the result of n steps |
| `FtcsSpec.RunWithin` | XC1.py:80-81 | for 0 <= r <= 1/2 the field stays within its initial bounds after any number of steps |
| `FtcsSpec.RunNonIncreasing` | XC1.py:80-81 | for 0 <= r <= 1/2 a non-increasing field stays non-increasing after any number of steps |
| `Xc1.Simulate` | XC1.py:34-81 | the final field is Run of the step profile with r = 1/2, has the grid's length, keeps C[0] = C_left and the initial last value, which is C_right whenever the grid has at least three points, stays between C_left and C_right, and stays non-increasing when C_right <= C_left |
| `Xc1.ScriptGrid` | XC1.py:41-72 | for Lx = 300 and dx = 0.5 the grid has 600 points; the midpoint x[300] = 150 gets C_left = 500 and x[301] = 150.5 gets C_right = 0; dt = 0.00125 for D = 100 |
| `Xc1.Script` | XC1.py:34-81 | the script's run on the grid arange(0, 300, 0.5): 600 points, dt = 0.00125, final field = 5000 steps at r = 1/2, C[0] = 500, C[599] = 0, all values in [0, 500], non-increasing |

## Left out

- Plotting (XC1.py:26, 61-65, 87-90) is presentation through matplotlib, a foreign library. It only reads `x` and `C`.
- IEEE-754 floating point is not modelled; all arithmetic is exact `real` arithmetic. In particular `0.5*dx**2/D` is exactly 0.00125, and the diffusion number is exactly 1/2. In doubles both may be off by rounding.
- The length of `np.arange` is modelled as the exact ceiling of Lx/dx. numpy computes the length in floating point, which can differ by one for steps that are not exactly representable. For the script's dx = 0.5 the two agree.
- Convergence of the field to the linear ramp between C_left and C_right after many steps is a limit and tolerance property of the numerics. It is not stated.
- Both the InvalidGridError for fewer than three points and the StabilityWarning for a too-large time step are left out, because XC1.py has neither. With fewer than three points every numpy slice in the update is empty, and the step does nothing (`FtcsSpec.StepShortField`). No parameter is validated at run time. `Simulate` only requires D, Lx and dx to be positive, as the script's values are.
- `nt` is an integer, as in Python. `range(0, nt)` with a negative `nt` runs no step. This is modelled by `Iterations` and not excluded.
