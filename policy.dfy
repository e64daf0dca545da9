/** The integrator states a trajectory call walks through, and the
    singularity check applied after each step; shared by the bulk and the
    streaming mode. */
module Policy {
  import opened Integrator
  import opened Geometry

  /** The inputs of one call that fix the integrator's states: the
      geometry, the stepping rule, start_lambda, the integrator's bound
      (end_lambda in bulk mode) and the initial step size. */
  datatype Run = Run(g: Geometry, advance: StepFn, start: real, end: real, stepsize: real)

  /** The integrator's state after k steps: RK45 is bound to run.end and
      starts at (start_lambda, initial_vec, stepsize). */
  function StateAt(run: Run, k: nat): Ode {
    Iterate(run.advance, run.end, Ode(run.start, run.g.initialVec, run.stepsize), k)
  }

  /** Some state reached by one of the first n steps is near the
      singularity (the initial state is never checked). */
  predicate SingularWithin(run: Run, n: nat) {
    n > 0 && (SingularWithin(run, n - 1) || NearSingularity(run.g, StateAt(run, n).y))
  }

  /** Once a step has landed near the singularity, every later prefix of
      the walk contains that step. */
  lemma {:induction false} SingularWithinMonotone(run: Run, m: nat, n: nat)
    requires m <= n && SingularWithin(run, m)
    ensures SingularWithin(run, n)
  {
    if m < n {
      SingularWithinMonotone(run, m, n - 1);
    }
  }

}
