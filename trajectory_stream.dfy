/** Streaming mode: Schwarzschild.calculate_trajectory_iterator. The Python
    generator becomes a cursor object holding what the generator's frame
    holds: the integrator, the one-shot latch, and whether the generator has
    started or finished. */
module TrajectoryStream {
  import opened StateVector
  import opened Integrator
  import opened Geometry
  import opened Policy

  datatype Option<T> = None | Some(value: T)

  /** The integrator's bound in streaming mode (t_bound=1e300). */
  const StreamBound: real := 1e300

  /** The (lambda, state) pair yielded for the integrator state o. */
  function Yielded(cartesian: bool, conv: Conversions, o: Ode): (real, StateVec) {
    (o.t, View(cartesian, conv, o.y))
  }

  class TrajectoryIterator {
    const g: Geometry
    const stopOnSingularity: bool
    const returnCartesian: bool
    const conv: Conversions
    /** The RK45 object the generator closes over. */
    const ode: Rk45
    /** _scr = 1.001 * r_s */
    const scr: real
    /** The inputs that fix the integrator's successive states. */
    ghost const run: Run

    /** The nonlocal singularity_reached latch. */
    var singularityReached: bool
    /** The generator has run to its first yield. */
    var started: bool
    /** The generator has left its loop: every further pull yields nothing. */
    var done: bool
    /** Singularity warnings issued so far. */
    var warnings: nat
    /** Steps the integrator has taken. */
    ghost var steps: nat
    /** Points yielded so far. */
    ghost var yielded: nat

    ghost predicate Valid()
      reads this, ode
    {
      && run.g == g && run.end == StreamBound
      && ode.advance == run.advance && ode.tBound == StreamBound
      && scr == SingularityThreshold(g)
      && ode.Snapshot() == StateAt(run, steps)
      && started == (yielded > 0)
      && (!done ==> steps == if started then yielded - 1 else 0)
      && (done ==> stopOnSingularity && steps == yielded >= 1 && SingularWithin(run, steps))
      && singularityReached == (!stopOnSingularity && SingularWithin(run, steps))
      && (stopOnSingularity && !done ==> !SingularWithin(run, steps))
      && warnings == if SingularWithin(run, steps) then 1 else 0
    }

    /** calculate_trajectory_iterator(start_lambda, stop_on_singularity,
        {"stepsize": stepsize}, return_cartesian): the integrator is created
        at once, nothing is yielded yet. */
    constructor (g: Geometry, advance: StepFn, conv: Conversions, startLambda: real := 0.0,
                 stopOnSingularity: bool := true, stepsize: real := 0.001, returnCartesian: bool := false)
      ensures Valid() && fresh(ode)
      ensures this.g == g && this.stopOnSingularity == stopOnSingularity
      ensures this.returnCartesian == returnCartesian && this.conv == conv
      ensures run == Run(g, advance, startLambda, StreamBound, stepsize)
      ensures yielded == 0 && !done && warnings == 0
    {
      this.g := g;
      this.stopOnSingularity := stopOnSingularity;
      this.returnCartesian := returnCartesian;
      this.conv := conv;
      run := Run(g, advance, startLambda, StreamBound, stepsize);
      ode := new Rk45(advance, startLambda, g.initialVec, StreamBound, stepsize);
      scr := SingularityThreshold(g);
      singularityReached, started, done, warnings := false, false, false, 0;
      steps, yielded := 0, 0;
    }

    /** One pull on the generator. The first pull yields the initial point.
        Every later pull resumes after the previous yield: it steps, applies
        the singularity check (warn once; then stop, or latch and go on),
        and yields the new point unless it stopped. Once stopped, a pull
        yields nothing. */
    method Next() returns (point: Option<(real, StateVec)>)
      requires Valid()
      modifies this, ode
      ensures Valid()
      ensures old(done) ==> point == None && steps == old(steps) && yielded == old(yielded)
      ensures !old(done) ==>
        (point == None <==> stopOnSingularity && SingularWithin(run, old(yielded)))
      ensures point.Some? ==>
        yielded == old(yielded) + 1 &&
        point.value == Yielded(returnCartesian, conv, StateAt(run, old(yielded)))
      ensures done <==> point == None
      ensures warnings <= 1 && old(warnings) <= warnings
    {
      if done {
        return None;
      }
      if started {
        ode.Step();
        steps := steps + 1;
        if !singularityReached && ode.y[1] <= scr {
          warnings := warnings + 1;
          if stopOnSingularity {
            done := true;
            return None;
          } else {
            singularityReached := true;
          }
        }
      }
      started := true;
      yielded := yielded + 1;
      if !returnCartesian {
        point := Some((ode.t, ode.y));
      } else {
        var temp := CartesianView(conv, ode.y);
        point := Some((ode.t, temp));
      }
    }
  }

  /** The first element a fresh iterator yields is (start_lambda,
      initial_vec), in Cartesian form when asked for, whatever the initial
      radius. */
  method FirstPoint(g: Geometry, advance: StepFn, conv: Conversions, startLambda: real := 0.0,
                    stopOnSingularity: bool := true, stepsize: real := 0.001, returnCartesian: bool := false)
    returns (point: Option<(real, StateVec)>)
    ensures point == Some((startLambda, View(returnCartesian, conv, g.initialVec)))
  {
    var it := new TrajectoryIterator(g, advance, conv, startLambda, stopOnSingularity, stepsize, returnCartesian);
    point := it.Next();
  }
}
