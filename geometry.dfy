/** A Schwarzschild geometry instance: the central mass and the fixed
    initial state built once by Schwarzschild.__init__. */
module Geometry {
  import opened Physics
  import opened StateVector

  datatype Geometry = Geometry(
    mass: real,
    pos: Triple,
    vel: Triple,
    time: real,
    timeVel: real,
    initialVec: StateVec,
    schwarzschildR: real
  )

  /** Schwarzschild(pos_vec, vel_vec, time, M): the time-velocity slot is
      normalised by time_velocity, and the initial vector holds the start
      time in slot 0, the position in 1..3, the time-velocity in 4 and the
      velocity in 5..7. */
  function NewGeometry(phys: Collaborators, pos: Triple, vel: Triple, time: real, mass: real): (g: Geometry)
    ensures g.mass == mass && g.pos == pos && g.vel == vel && g.time == time
    ensures g.timeVel == phys.timeVelocity(pos, vel, mass)
    ensures Time(g.initialVec) == time && Position(g.initialVec) == pos
    ensures TimeVelocity(g.initialVec) == g.timeVel && Velocity(g.initialVec) == vel
    ensures g.schwarzschildR == phys.schwarzschildRadius(mass)
  {
    var timeVel := phys.timeVelocity(pos, vel, mass);
    Geometry(mass, pos, vel, time, timeVel, Pack(time, pos, timeVel, vel), phys.schwarzschildRadius(mass))
  }

  /** The factor on r_s below which the engine reports the singularity. */
  const ThresholdFactor: real := 1.001

  /** _scr = 1.001 * r_s: a tenth of a percent above the Schwarzschild
      radius. */
  function SingularityThreshold(g: Geometry): (scr: real)
    ensures 1000.0 * scr == 1001.0 * g.schwarzschildR
    ensures g.schwarzschildR > 0.0 ==> g.schwarzschildR < scr
  {
    g.schwarzschildR * ThresholdFactor
  }

  /** ODE.y[1] <= _scr: the state's radius has reached the threshold. Every
      radius at or inside r_s is flagged, and no radius beyond 1.001 r_s. */
  predicate NearSingularity(g: Geometry, v: StateVec): (near: bool)
    ensures 0.0 <= g.schwarzschildR && Radius(v) <= g.schwarzschildR ==> near
    ensures 1000.0 * Radius(v) > 1001.0 * g.schwarzschildR ==> !near
  {
    Radius(v) <= SingularityThreshold(g)
  }
}
