/** The 8-slot state vector [t, r, θ, φ, dt/dλ, dr/dλ, dθ/dλ, dφ/dλ]. */
module StateVector {
  import opened Physics

  type StateVec = s: seq<real> | |s| == 8 witness [0.0, 0.0, 0.0, 0.0, 0.0, 0.0, 0.0, 0.0]

  function Time(v: StateVec): real { v[0] }
  function Position(v: StateVec): Triple { v[1..4] }
  function TimeVelocity(v: StateVec): real { v[4] }
  function Velocity(v: StateVec): Triple { v[5..8] }
  /** The radial coordinate, the slot the singularity check looks at. */
  function Radius(v: StateVec): real { v[1] }

  /** The stacking np.hstack((time, pos_vec, time_vel, vel_vec)) of
      Schwarzschild.__init__, for vectors of any length. */
  function Stack(time: real, pos: seq<real>, timeVel: real, vel: seq<real>): (r: seq<real>)
    ensures |r| == |pos| + |vel| + 2
    ensures r[0] == time && r[|pos| + 1] == timeVel
    ensures r[1..|pos| + 1] == pos && r[|pos| + 2..] == vel
  {
    [time] + pos + [timeVel] + vel
  }

  /** The stacking of a 3-vector position and velocity: an 8-slot state. */
  function Pack(time: real, pos: Triple, timeVel: real, vel: Triple): (v: StateVec)
    ensures Time(v) == time && Position(v) == pos
    ensures TimeVelocity(v) == timeVel && Velocity(v) == vel
  {
    Stack(time, pos, timeVel, vel)
  }

  /** Every state vector is the stacking of its four parts, so the layout
      loses nothing. */
  lemma {:induction false} PackOfParts(v: StateVec)
    ensures Pack(Time(v), Position(v), TimeVelocity(v), Velocity(v)) == v
  {
    var w := Pack(Time(v), Position(v), TimeVelocity(v), Velocity(v));
    forall i | 0 <= i < 8 ensures w[i] == v[i] {
      if 1 <= i < 4 {
        assert w[i] == Position(w)[i - 1];
      } else if 5 <= i {
        assert w[i] == Velocity(w)[i - 5];
      }
    }
  }

  /** The pure coordinate conversions the Cartesian view relies on
      (SphericalToCartesian_pos and SphericalToCartesian_vel). */
  datatype Conversions = Conversions(
    pos: Triple -> Triple,
    vel: (Triple, Triple) -> Triple
  )

  /** The Cartesian copy of a state: slots 1..3 become the Cartesian position
      and slots 5..7 the Cartesian velocity; slots 0 and 4 are kept. */
  function CartesianView(conv: Conversions, v: StateVec): (c: StateVec)
    ensures Time(c) == Time(v) && TimeVelocity(c) == TimeVelocity(v)
    ensures Position(c) == conv.pos(Position(v))
    ensures Velocity(c) == conv.vel(Position(v), Velocity(v))
  {
    Pack(Time(v), conv.pos(Position(v)), TimeVelocity(v), conv.vel(Position(v), Velocity(v)))
  }

  /** What a trajectory reports for a state: the state itself, or its
      Cartesian view when Cartesian output was requested. */
  function View(cartesian: bool, conv: Conversions, v: StateVec): (c: StateVec)
    ensures c[0] == v[0] && c[4] == v[4]
    ensures !cartesian ==> c == v
    ensures cartesian ==> Position(c) == conv.pos(Position(v)) && Velocity(c) == conv.vel(Position(v), Velocity(v))
  {
    if cartesian then CartesianView(conv, v) else v
  }
}
