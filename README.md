# Schwarzschild geodesic engine — a Dafny model

This project models the control logic of einsteinpy's `Schwarzschild` class
(`src/einsteinpy/metric/schwarzschild.py`). That class computes the worldline of a test
particle around a non-rotating mass by integrating the geodesic equation. The
state is the 8-slot vector `[t, r, θ, φ, dt/dλ, dr/dλ, dθ/dλ, dφ/dλ]` and λ is
the affine parameter.

The model covers four parts:

- **The initial state** (`Schwarzschild.__init__`). `Geometry.NewGeometry` stacks the
  start time, position, normalised time-velocity and velocity into the 8-slot
  layout of `StateVector`.
- **The geodesic right-hand side** (`f_vec`). `GeodesicField.FVec` gives each output slot
  as an expression in the input and in a Christoffel tensor. It is proved equal to the
  full geodesic contraction `-Γ^m_{ab} u^a u^b` whenever the tensor has the
  Schwarzschild shape (symmetric lower indices, zero outside the known nonzero slots).
- **Bulk mode** (`calculate_trajectory`). `BulkTrajectory.CalculateTrajectory` is the
  `while` loop. It records `(λ, state)` and steps an `Integrator.Rk45` object, then
  applies the singularity policy: the threshold is `1.001 · r_s`, a warning is
  issued once, and the loop either stops or sets a one-shot latch. Its result is
  specified declaratively by `IsBulkResult`. The lemmas beside it prove uniqueness,
  the first point, strict λ ordering and that stopping yields a prefix.
- **Streaming mode** (`calculate_trajectory_iterator`). The generator becomes the
  cursor class `TrajectoryStream.TrajectoryIterator`. Its `Next` follows Python's
  generator semantics exactly. The first pull yields the initial point without
  stepping. Each later pull resumes after the previous `yield`: it steps, applies the
  same latch/stop rule, then yields. After a stop, every pull yields nothing.

Collaborators whose code is not part of this model become values of function type.
`Physics.Collaborators` holds `christoffels`, `time_velocity` and
`schwarzschild_radius`. `StateVector.Conversions` holds the spherical-to-Cartesian
position and velocity maps. `Integrator.StepFn` is one adaptive RK45 step. It maps
the bound `t_bound` and the integrator snapshot `(t, y, h)` to the next snapshot;
`h` is the adaptive step size and starts at the `stepsize` keyword argument. Every
result holds for any such functions. Python's `warnings.warn` becomes a counter of
warnings issued.

The model keeps three details of the code that are easy to state wrongly:

- The initial point is always recorded when `start_lambda < end_lambda`, even when the
  initial radius is already at or below the threshold. The check runs only after a step.
- The recorded λ values are strictly increasing only if the stepper moves λ forward.
  This is a hypothesis of `BulkLambdasIncreasing`.
- A step that reaches `end_lambda` and lands near the singularity still raises the
  warning.

## Model

| member | source | states |
|---|---|---|
| `StateVector.Stack` | src/einsteinpy/metric/schwarzschild.py:27-29 | the stacked initial vector has as many slots as the position and velocity together, plus two: time in slot 0, then the position, the time-velocity, then the velocity |
| `StateVector.Pack` | src/einsteinpy/metric/schwarzschild.py:27-29 | for 3-vectors the stacking is an 8-slot state whose time, position, time-velocity and velocity accessors give back the four parts |
| `StateVector.PackOfParts` | src/einsteinpy/metric/schwarzschild.py:27-29 | every 8-slot state is the stacking of its four parts (the layout is a bijection) |
| `StateVector.CartesianView` | src/einsteinpy/metric/schwarzschild.py:244-246 | the Cartesian copy keeps slots 0 and 4, puts the converted position in 1..3 and the converted velocity in 5..7 |
| `StateVector.View` | src/einsteinpy/metric/schwarzschild.py:241-247 | the reported state keeps slots 0 and 4; it is the state itself without Cartesian output, and otherwise has the converted position and velocity |
| `Geometry.NewGeometry` | src/einsteinpy/metric/schwarzschild.py:21-30 | the geometry keeps its inputs; the initial vector holds the start time, the position, `time_velocity(pos, vel, M)` and the velocity in their slots; `r_s = schwarzschild_radius(M)` |
| `Geometry.SingularityThreshold` | src/einsteinpy/metric/schwarzschild.py:165 | the threshold `_scr` is `1.001 · r_s` (`1000 · scr = 1001 · r_s`), strictly above `r_s` for a positive radius; the streaming mode uses the same value (line 236) |
| `Geometry.NearSingularity` | src/einsteinpy/metric/schwarzschild.py:170 | the test `ODE.y[1] <= _scr` flags every state whose radius is at or inside `r_s`, and no state whose radius exceeds `1.001 · r_s`; line 249 applies the same test in streaming mode |
| `GeodesicField.FVec` | src/einsteinpy/metric/schwarzschild.py:109-122 | the result has the input's length; slots 0..3 are input slots 4..7; slots past 7 are zero; all four velocities zero gives the zero vector |
| `GeodesicField.FVecIsGeodesicEquation` | src/einsteinpy/metric/schwarzschild.py:113-121 | for a Christoffel tensor of Schwarzschild shape, every acceleration slot 4+m (m < 4) equals `-Σ_{a,b<4} Γ^m_{ab} u^a u^b` over the velocity slots 4..7 |
| `GeodesicField.TimeAcceleration` | src/einsteinpy/metric/schwarzschild.py:113 | for a tensor of Schwarzschild shape, slot 4 equals `-Σ Γ^t_{ab} u^a u^b`; the factor 2 covers Γ^t_{tr} and Γ^t_{rt} |
| `GeodesicField.RadialAcceleration` | src/einsteinpy/metric/schwarzschild.py:114-119 | for a tensor of Schwarzschild shape, slot 5 equals `-Σ Γ^r_{ab} u^a u^b`, whose only terms are the four diagonal ones |
| `GeodesicField.PolarAcceleration` | src/einsteinpy/metric/schwarzschild.py:120 | for a tensor of Schwarzschild shape, slot 6 equals `-Σ Γ^θ_{ab} u^a u^b` |
| `GeodesicField.AzimuthalAcceleration` | src/einsteinpy/metric/schwarzschild.py:121 | for a tensor of Schwarzschild shape, slot 7 equals `-Σ Γ^φ_{ab} u^a u^b` |
| `GeodesicField.FVecIgnoresLambda` | src/einsteinpy/metric/schwarzschild.py:109-112 | the result does not depend on the affine parameter `ld` |
| `Integrator.Rk45.constructor` | src/einsteinpy/metric/schwarzschild.py:158-164 | the integrator starts at `(t0, y0)` with the given step size and bound |
| `Integrator.Rk45.Step` | src/einsteinpy/metric/schwarzschild.py:169 | one step replaces the snapshot by the stepping rule applied to the old snapshot |
| `Integrator.IterateIncreasing` | src/einsteinpy/metric/schwarzschild.py:166-169 | if each step from a state below the bound moves λ strictly forward, then among states whose predecessors are all below the bound, later ones have strictly larger λ |
| `Policy.SingularWithinMonotone` | src/einsteinpy/metric/schwarzschild.py:170-178 | once a step has landed at or below the threshold, the latch condition holds for every later step count |
| `BulkTrajectory.ViewAll` | src/einsteinpy/metric/schwarzschild.py:180-197 | the returned state list has the recorded list's length and holds each recorded state's view, Cartesian or not |
| `BulkTrajectory.CalculateTrajectory` | src/einsteinpy/metric/schwarzschild.py:124-197 | the defaults are `start_lambda = 0.0`, `end_lambda = 10.0`, stop on the singularity, step size `1e-3` and no Cartesian output; the lists have equal length; entry i is the integrator's state after i steps and its λ; every recorded λ is below `end_lambda`; no recorded state is an exit; the loop stops at the first exit (λ reached `end_lambda`, or with stop-on-singularity a post-step state at or below `1.001·r_s`, which is not appended); exactly one warning iff some step landed at or below the threshold, so at most one |
| `BulkTrajectory.BulkResultUnique` | src/einsteinpy/metric/schwarzschild.py:155-178 | the recorded lists and the warning count are determined by the call's inputs |
| `BulkTrajectory.BulkStartsAtInitialState` | src/einsteinpy/metric/schwarzschild.py:166-170 | the lists are empty exactly when `start_lambda >= end_lambda`; otherwise the first pair is `(start_lambda, initial_vec)`, whatever the initial radius |
| `BulkTrajectory.BulkLambdasIncreasing` | src/einsteinpy/metric/schwarzschild.py:166-169 | under a stepper that moves λ forward from every state below `end_lambda`, the recorded λ list is strictly increasing |
| `BulkTrajectory.StopIsPrefixOfContinue` | src/einsteinpy/metric/schwarzschild.py:170-178 | the stopping call records a prefix of the continuing call's lists with no more warnings, and strictly fewer points when it stopped at the singularity before `end_lambda` |
| `TrajectoryStream.TrajectoryIterator.constructor` | src/einsteinpy/metric/schwarzschild.py:199-236 | with the defaults `start_lambda = 0.0`, stop on the singularity, step size `1e-3` and no Cartesian output, the integrator is created at `start_lambda` with bound `1e300`; nothing is yielded, no warning, latch clear |
| `TrajectoryStream.TrajectoryIterator.Next` | src/einsteinpy/metric/schwarzschild.py:238-257 | pull number k+1 yields the view of the state after k steps, unless stop-on-singularity is set and one of steps 1..k landed at or below the threshold; then it and every later pull yield nothing; at most one warning overall |
| `TrajectoryStream.FirstPoint` | src/einsteinpy/metric/schwarzschild.py:238-247 | the first element of a fresh iterator is `(start_lambda, initial_vec)` (its Cartesian view when asked for) |

## Left out

- RK45 adaptive stepping (its step-size control and error estimation) is not modelled. A step is an arbitrary function of the bound and the snapshot `(t, y, h)`. The link between that function and `f_vec` is stated only in comments.
- The bodies of `christoffels`, `time_velocity` and `schwarzschild_radius` are not part of this model. They are function-valued parameters; the Schwarzschild shape of the tensor is a hypothesis of `FVecIsGeodesicEquation`.
- `S2C_8dim`, `SphericalToCartesian_pos`, `SphericalToCartesian_vel` and `C2S_units` are not part of this model. Bulk Cartesian output is taken to convert each row as the streaming view does, with slots 0 and 4 unchanged.
- `from_spherical`, `from_cartesian` and `_classmethod_handler` are not modelled. They convert astropy units and write the class attributes `units_list`, `input_units_list` and `input_coord_system`. So are the `units_list` writes in both trajectory methods. None of them affects the integration.
- Python's `warnings` output is reduced to a count of warnings issued.
- Floating point is not modelled: all quantities are `real`, and no claim about numerical accuracy is made.
- `BulkTrajectory.CalculateTrajectory`: requires that some number of steps reaches an exit (`ReachesExit`). An exit is λ reaching `end_lambda` or, when stopping on the singularity, a step landing at or below `1.001 · r_s`. Without one the Python loop never ends, so nothing is lost.
- The failure of the real RK45 after it reaches its bound is not modelled. This includes the streaming bound `1e300`.
- Aliasing is not modelled. States are values, so the model assumes the integrator replaces `ODE.y` on each step instead of mutating the array the lists already hold.
