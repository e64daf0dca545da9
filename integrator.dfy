/** The adaptive integrator the engine drives (einsteinpy's RK45). Its
    stepping rule is not part of this model: a step is an arbitrary function
    of the integration bound and the integrator's current state. */
module Integrator {
  import opened StateVector

  /** A snapshot of the integrator: the affine parameter t, the state y and
      the current adaptive step size h. */
  datatype Ode = Ode(t: real, y: StateVec, h: real)

  /** One adaptive step of RK45 over f_vec towards the bound t_bound. */
  type StepFn = (real, Ode) -> Ode

  /** The integrator's state after k steps from o. */
  function Iterate(advance: StepFn, bound: real, o: Ode, k: nat): Ode {
    if k == 0 then o else advance(bound, Iterate(advance, bound, o, k - 1))
  }

  /** Each step taken from below the bound moves the affine parameter
      strictly forward (at or past the bound the integrator may stand still). */
  ghost predicate Increasing(advance: StepFn, bound: real) {
    forall o: Ode | o.t < bound :: advance(bound, o).t > o.t
  }

  /** Under a stepper that moves forward below the bound, the affine
      parameters of successive integrator states are strictly increasing as
      long as the earlier states are below the bound. */
  lemma {:induction false} IterateIncreasing(advance: StepFn, bound: real, o: Ode, i: nat, j: nat)
    requires Increasing(advance, bound)
    requires i < j
    requires forall k: nat | k < j :: Iterate(advance, bound, o, k).t < bound
    ensures Iterate(advance, bound, o, i).t < Iterate(advance, bound, o, j).t
  {
    if i < j - 1 {
      IterateIncreasing(advance, bound, o, i, j - 1);
    }
  }

  /** The RK45 object: created from the initial parameter, state, bound and
      step size, then advanced in place by Step. */
  class Rk45 {
    const advance: StepFn
    const tBound: real
    var t: real
    var y: StateVec
    var h: real

    function Snapshot(): Ode
      reads this
    {
      Ode(t, y, h)
    }

    constructor (advance: StepFn, t0: real, y0: StateVec, tBound: real, stepsize: real)
      ensures this.advance == advance && this.tBound == tBound
      ensures Snapshot() == Ode(t0, y0, stepsize)
    {
      this.advance := advance;
      this.tBound := tBound;
      t, y, h := t0, y0, stepsize;
    }

    /** ODE.step(): one adaptive step. */
    method Step()
      modifies this
      ensures Snapshot() == advance(tBound, old(Snapshot()))
    {
      var next := advance(tBound, Snapshot());
      t, y, h := next.t, next.y, next.h;
    }
  }
}
