/** The physical collaborators of the Schwarzschild engine whose bodies are not
    part of this model: the Christoffel-symbol computer, the time-velocity
    normalisation and the Schwarzschild radius. They enter the model as values
    of function type, so every statement proved here holds for whatever those
    collaborators compute. */
module Physics {

  /** A 4x4x4 array of Christoffel symbols, indexed (upper, lower, lower). */
  type Tensor = (nat, nat, nat) -> real

  /** A 3-vector: (r, theta, phi), (x, y, z) or one of their velocities. */
  type Triple = s: seq<real> | |s| == 3 witness [0.0, 0.0, 0.0]

  datatype Collaborators = Collaborators(
    /** christoffels(r, theta, M) */
    christoffels: (real, real, real) -> Tensor,
    /** time_velocity(pos_vec, vel_vec, M): the normalised dt/dlambda */
    timeVelocity: (Triple, Triple, real) -> real,
    /** schwarzschild_radius(M) */
    schwarzschildRadius: real -> real
  )

  /** The slots in which a Schwarzschild Christoffel tensor may be nonzero:
      Γ^t_{tr}, Γ^r_{tt}, Γ^r_{rr}, Γ^r_{θθ}, Γ^r_{φφ}, Γ^θ_{rθ}, Γ^θ_{φφ},
      Γ^φ_{rφ}, Γ^φ_{θφ}, each with its two lower indices in either order. */
  predicate NonzeroSlot(m: nat, a: nat, b: nat) {
    || (m == 0 && {a, b} == {0, 1})
    || (m == 1 && a == b)
    || (m == 2 && ({a, b} == {1, 2} || a == b == 3))
    || (m == 3 && ({a, b} == {1, 3} || {a, b} == {2, 3}))
  }

  /** The shape every Schwarzschild Christoffel tensor has: symmetric in its
      two lower indices and zero outside NonzeroSlot. */
  ghost predicate SchwarzschildShape(g: Tensor) {
    forall m: nat, a: nat, b: nat | m < 4 && a < 4 && b < 4 ::
      g(m, a, b) == g(m, b, a) && (!NonzeroSlot(m, a, b) ==> g(m, a, b) == 0.0)
  }
}
