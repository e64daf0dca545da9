/** Bulk mode: Schwarzschild.calculate_trajectory. */
module BulkTrajectory {
  import opened StateVector
  import opened Integrator
  import opened Geometry
  import opened Policy

  /** The loop does not record the state after k steps: its parameter has
      reached end_lambda, or (when stopping on the singularity) it is a
      post-step state near the singularity. */
  predicate Exits(run: Run, stop: bool, k: nat) {
    StateAt(run, k).t >= run.end || (stop && k >= 1 && NearSingularity(run.g, StateAt(run, k).y))
  }

  /** What calculate_trajectory returns: the states before the first exit,
      each with its parameter, and one warning exactly when a step landed
      near the singularity. */
  ghost predicate IsBulkResult(run: Run, stop: bool, cartesian: bool, conv: Conversions,
                               lambdas: seq<real>, vecs: seq<StateVec>, warnings: nat)
  {
    && |lambdas| == |vecs|
    && (forall i | 0 <= i < |lambdas| ::
          lambdas[i] == StateAt(run, i).t && vecs[i] == View(cartesian, conv, StateAt(run, i).y) && !Exits(run, stop, i))
    && Exits(run, stop, |lambdas|)
    && warnings == if SingularWithin(run, |lambdas|) then 1 else 0
  }

  /** The returned state list: S2C_8dim applied to every row when Cartesian
      output was requested, the recorded list itself otherwise. */
  function ViewAll(cartesian: bool, conv: Conversions, vs: seq<StateVec>): (r: seq<StateVec>)
    ensures |r| == |vs|
    ensures forall i | 0 <= i < |vs| :: r[i] == View(cartesian, conv, vs[i])
  {
    if cartesian then seq(|vs|, i requires 0 <= i < |vs| => CartesianView(conv, vs[i])) else vs
  }

  /** Some number of steps reaches an exit: λ gets to end_lambda, or (when
      stopping on the singularity) a step lands at or below the threshold. */
  ghost predicate ReachesExit(run: Run, stop: bool) {
    exists n: nat :: Exits(run, stop, n)
  }

  /** The parameters of the first k integrator states, in order. */
  function Lambdas(run: Run, k: nat): (r: seq<real>)
    ensures |r| == k
  {
    if k == 0 then [] else Lambdas(run, k - 1) + [StateAt(run, k - 1).t]
  }

  /** The first k integrator states, in order. */
  function States(run: Run, k: nat): (r: seq<StateVec>)
    ensures |r| == k
  {
    if k == 0 then [] else States(run, k - 1) + [StateAt(run, k - 1).y]
  }

  /** None of the first k integrator states is an exit. */
  predicate NoExitBefore(run: Run, stop: bool, k: nat) {
    k == 0 || (NoExitBefore(run, stop, k - 1) && !Exits(run, stop, k - 1))
  }

  /** The lists the loop builds hold, slot by slot, the states it walked
      through, none of which was an exit. */
  lemma {:induction false} RecordedStates(run: Run, stop: bool, k: nat)
    requires NoExitBefore(run, stop, k)
    ensures forall i | 0 <= i < k ::
      Lambdas(run, k)[i] == StateAt(run, i).t && States(run, k)[i] == StateAt(run, i).y && !Exits(run, stop, i)
  {
    if k > 0 {
      RecordedStates(run, stop, k - 1);
    }
  }

  /** The lists held when the loop leaves at its first exit are the
      call's result. */
  lemma {:induction false} LoopResult(run: Run, stop: bool, cartesian: bool, conv: Conversions, k: nat, warnings: nat)
    requires NoExitBefore(run, stop, k) && Exits(run, stop, k)
    requires warnings == if SingularWithin(run, k) then 1 else 0
    ensures IsBulkResult(run, stop, cartesian, conv, Lambdas(run, k), ViewAll(cartesian, conv, States(run, k)), warnings)
  {
    RecordedStates(run, stop, k);
  }

  /** calculate_trajectory(start_lambda, end_lambda, stop_on_singularity,
      {"stepsize": stepsize}, return_cartesian). */
  method CalculateTrajectory(g: Geometry, advance: StepFn, conv: Conversions,
                             startLambda: real := 0.0, endLambda: real := 10.0, stopOnSingularity: bool := true,
                             stepsize: real := 0.001, returnCartesian: bool := false)
    returns (lambdas: seq<real>, vecs: seq<StateVec>, warnings: nat)
    requires ReachesExit(Run(g, advance, startLambda, endLambda, stepsize), stopOnSingularity)
    ensures IsBulkResult(Run(g, advance, startLambda, endLambda, stepsize), stopOnSingularity,
                         returnCartesian, conv, lambdas, vecs, warnings)
    ensures |lambdas| == |vecs| && warnings <= 1
    ensures forall i | 0 <= i < |lambdas| :: lambdas[i] < endLambda
  {
    ghost var run := Run(g, advance, startLambda, endLambda, stepsize);
    ghost var n: nat :| Exits(run, stopOnSingularity, n);
    var vecList: seq<StateVec> := [];
    lambdas := [];
    warnings := 0;
    var singularityReached := false;
    var ode := new Rk45(advance, startLambda, g.initialVec, endLambda, stepsize);
    var scr := SingularityThreshold(g);
    ghost var k: nat := 0;
    while ode.t < endLambda
      invariant ode.advance == advance && ode.tBound == endLambda
      invariant k == |lambdas| <= n
      invariant ode.Snapshot() == StateAt(run, k)
      invariant lambdas == Lambdas(run, k) && vecList == States(run, k)
      invariant NoExitBefore(run, stopOnSingularity, k)
      invariant singularityReached == (!stopOnSingularity && SingularWithin(run, k))
      invariant stopOnSingularity ==> !SingularWithin(run, k)
      invariant warnings == if SingularWithin(run, k) then 1 else 0
      decreases n - k
    {
      vecList := vecList + [ode.y];
      lambdas := lambdas + [ode.t];
      ode.Step();
      k := k + 1;
      if !singularityReached && ode.y[1] <= scr {
        warnings := warnings + 1;
        if stopOnSingularity {
          break;
        } else {
          singularityReached := true;
        }
      }
    }
    assert lambdas == Lambdas(run, k) && vecList == States(run, k);
    assert Exits(run, stopOnSingularity, k);
    vecs := ViewAll(returnCartesian, conv, vecList);
    LoopResult(run, stopOnSingularity, returnCartesian, conv, k, warnings);
  }

  /** The recorded trajectory is determined by the call's inputs. */
  lemma {:induction false} BulkResultUnique(run: Run, stop: bool, cartesian: bool, conv: Conversions,
                                            l1: seq<real>, v1: seq<StateVec>, w1: nat,
                                            l2: seq<real>, v2: seq<StateVec>, w2: nat)
    requires IsBulkResult(run, stop, cartesian, conv, l1, v1, w1)
    requires IsBulkResult(run, stop, cartesian, conv, l2, v2, w2)
    ensures l1 == l2 && v1 == v2 && w1 == w2
  {
    var n1: nat, n2: nat := |l1|, |l2|;
    assert n1 < n2 ==> !Exits(run, stop, n1);
    assert n2 < n1 ==> !Exits(run, stop, n2);
  }

  /** Nothing is recorded when start_lambda >= end_lambda; otherwise the
      first pair is (start_lambda, initial_vec), even when the initial
      radius is already near the singularity, since the check only follows
      a step. */
  lemma {:induction false} BulkStartsAtInitialState(run: Run, stop: bool, cartesian: bool, conv: Conversions,
                                                    lambdas: seq<real>, vecs: seq<StateVec>, warnings: nat)
    requires IsBulkResult(run, stop, cartesian, conv, lambdas, vecs, warnings)
    ensures run.start >= run.end <==> lambdas == []
    ensures run.start < run.end ==>
      |lambdas| >= 1 && lambdas[0] == run.start && vecs[0] == View(cartesian, conv, run.g.initialVec)
  {
    assert StateAt(run, 0).t == run.start;
    assert |lambdas| > 0 ==> !Exits(run, stop, 0);
  }

  /** When every step moves the parameter forward, the recorded lambdas are
      strictly increasing. */
  lemma {:induction false} BulkLambdasIncreasing(run: Run, stop: bool, cartesian: bool, conv: Conversions,
                                                 lambdas: seq<real>, vecs: seq<StateVec>, warnings: nat)
    requires IsBulkResult(run, stop, cartesian, conv, lambdas, vecs, warnings)
    requires Increasing(run.advance, run.end)
    ensures forall i, j | 0 <= i < j < |lambdas| :: lambdas[i] < lambdas[j]
  {
    forall i, j | 0 <= i < j < |lambdas| ensures lambdas[i] < lambdas[j] {
      forall k: nat | k < j
        ensures Iterate(run.advance, run.end, Ode(run.start, run.g.initialVec, run.stepsize), k).t < run.end
      {
        assert !Exits(run, stop, k);
      }
      IterateIncreasing(run.advance, run.end, Ode(run.start, run.g.initialVec, run.stepsize), i, j);
    }
  }

  /** Stopping on the singularity only cuts the trajectory short: the
      stopping call records a prefix of what the continuing call records,
      with no more warnings; and when it stops at a singular state before
      end_lambda, it records strictly fewer points. */
  lemma {:induction false} StopIsPrefixOfContinue(run: Run, cartesian: bool, conv: Conversions,
                                                  l1: seq<real>, v1: seq<StateVec>, w1: nat,
                                                  l2: seq<real>, v2: seq<StateVec>, w2: nat)
    requires IsBulkResult(run, true, cartesian, conv, l1, v1, w1)
    requires IsBulkResult(run, false, cartesian, conv, l2, v2, w2)
    ensures |l1| <= |l2| && l1 == l2[..|l1|] && v1 == v2[..|v1|] && w1 <= w2
    ensures w1 == 1 && StateAt(run, |l1|).t < run.end ==> |l1| < |l2|
  {
    var n2: nat := |l2|;
    assert n2 < |l1| ==> !Exits(run, true, n2);
    if w1 == 1 {
      SingularWithinMonotone(run, |l1|, |l2|);
    }
  }
}
