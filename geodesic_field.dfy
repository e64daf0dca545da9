/** The right-hand side of the geodesic ODE (Schwarzschild.f_vec). */
module GeodesicField {
  import opened Physics

  /** f_vec(ld, vec): the derivative of the state vector. Slots 0..3 are the
      velocities, slots 4..7 the geodesic accelerations built from the
      Christoffel entries at (vec[1], vec[2], M); any slot past 7 stays at the
      zero the result array was created with. The affine parameter ld is not
      used. */
  function FVec(christoffels: (real, real, real) -> Tensor, mass: real, ld: real, vec: seq<real>): (r: seq<real>)
    requires |vec| >= 8
    ensures |r| == |vec|
    ensures r[..4] == vec[4..8]
    ensures forall i | 8 <= i < |r| :: r[i] == 0.0
    ensures (forall i | 4 <= i < 8 :: vec[i] == 0.0) ==> forall i | 0 <= i < |r| :: r[i] == 0.0
  {
    var chl := christoffels(vec[1], vec[2], mass);
    [ vec[4], vec[5], vec[6], vec[7],
      -2.0 * chl(0, 0, 1) * vec[4] * vec[5],
      -1.0 * ( chl(1, 0, 0) * (vec[4] * vec[4])
             + chl(1, 1, 1) * (vec[5] * vec[5])
             + chl(1, 2, 2) * (vec[6] * vec[6])
             + chl(1, 3, 3) * (vec[7] * vec[7])),
      -2.0 * chl(2, 2, 1) * vec[6] * vec[5] - 1.0 * chl(2, 3, 3) * (vec[7] * vec[7]),
      -2.0 * (chl(3, 3, 1) * vec[7] * vec[5] + chl(3, 3, 2) * vec[7] * vec[6]) ]
    + seq(|vec| - 8, _ => 0.0)
  }

  /** One term Γ^m_{ab} u^a u^b of the geodesic contraction. */
  function Term(g: Tensor, u: seq<real>, m: nat, a: nat, b: nat): real
    requires |u| == 4 && a < 4 && b < 4
  {
    g(m, a, b) * u[a] * u[b]
  }

  /** Σ_{b < n} Γ^m_{ab} u^a u^b */
  function RowSum(g: Tensor, u: seq<real>, m: nat, a: nat, n: nat): real
    requires |u| == 4 && a < 4 && n <= 4
  {
    if n == 0 then 0.0 else RowSum(g, u, m, a, n - 1) + Term(g, u, m, a, n - 1)
  }

  /** Σ_{a < n} Σ_{b < 4} Γ^m_{ab} u^a u^b */
  function Contraction(g: Tensor, u: seq<real>, m: nat, n: nat): real
    requires |u| == 4 && n <= 4
  {
    if n == 0 then 0.0 else Contraction(g, u, m, n - 1) + RowSum(g, u, m, n - 1, 4)
  }

  /** The geodesic equation d²x^m/dλ² = -Γ^m_{ab} (dx^a/dλ)(dx^b/dλ), summed
      over all sixteen (a, b) pairs: the reference f_vec is checked against. */
  function GeodesicAcceleration(g: Tensor, u: seq<real>, m: nat): real
    requires |u| == 4
  {
    -Contraction(g, u, m, 4)
  }

  /** The full double sum, spelled out term by term. */
  lemma {:induction false} ContractionExpanded(g: Tensor, u: seq<real>, m: nat)
    requires |u| == 4
    ensures Contraction(g, u, m, 4) ==
      (Term(g, u, m, 0, 0) + Term(g, u, m, 0, 1) + Term(g, u, m, 0, 2) + Term(g, u, m, 0, 3)) +
      (Term(g, u, m, 1, 0) + Term(g, u, m, 1, 1) + Term(g, u, m, 1, 2) + Term(g, u, m, 1, 3)) +
      (Term(g, u, m, 2, 0) + Term(g, u, m, 2, 1) + Term(g, u, m, 2, 2) + Term(g, u, m, 2, 3)) +
      (Term(g, u, m, 3, 0) + Term(g, u, m, 3, 1) + Term(g, u, m, 3, 2) + Term(g, u, m, 3, 3))
  {
    forall a: nat | a < 4
      ensures RowSum(g, u, m, a, 4) ==
        Term(g, u, m, a, 0) + Term(g, u, m, a, 1) + Term(g, u, m, a, 2) + Term(g, u, m, a, 3)
    {
      assert RowSum(g, u, m, a, 1) == Term(g, u, m, a, 0);
      assert RowSum(g, u, m, a, 2) == RowSum(g, u, m, a, 1) + Term(g, u, m, a, 1);
      assert RowSum(g, u, m, a, 3) == RowSum(g, u, m, a, 2) + Term(g, u, m, a, 2);
    }
    assert Contraction(g, u, m, 1) == RowSum(g, u, m, 0, 4);
    assert Contraction(g, u, m, 2) == Contraction(g, u, m, 1) + RowSum(g, u, m, 1, 4);
    assert Contraction(g, u, m, 3) == Contraction(g, u, m, 2) + RowSum(g, u, m, 2, 4);
  }

  /** In a tensor of Schwarzschild shape, the terms outside the nonzero
      slots vanish and the two orders of a lower index pair contribute alike. */
  lemma TermsOfShape(g: Tensor, u: seq<real>, m: nat, a: nat, b: nat)
    requires |u| == 4 && m < 4 && a < 4 && b < 4
    requires SchwarzschildShape(g)
    ensures !NonzeroSlot(m, a, b) ==> Term(g, u, m, a, b) == 0.0
    ensures Term(g, u, m, a, b) == Term(g, u, m, b, a)
  {
    assert g(m, a, b) == g(m, b, a);
  }

  /** The contraction for each m, reduced to the nonzero slots. */
  lemma {:induction false} ContractionOfShape(g: Tensor, u: seq<real>, m: nat)
    requires |u| == 4 && m < 4
    requires SchwarzschildShape(g)
    ensures m == 0 ==> Contraction(g, u, m, 4) == 2.0 * Term(g, u, 0, 0, 1)
    ensures m == 1 ==> Contraction(g, u, m, 4) ==
                       Term(g, u, 1, 0, 0) + Term(g, u, 1, 1, 1) + Term(g, u, 1, 2, 2) + Term(g, u, 1, 3, 3)
    ensures m == 2 ==> Contraction(g, u, m, 4) == 2.0 * Term(g, u, 2, 2, 1) + Term(g, u, 2, 3, 3)
    ensures m == 3 ==> Contraction(g, u, m, 4) == 2.0 * (Term(g, u, 3, 3, 1) + Term(g, u, 3, 3, 2))
  {
    ContractionExpanded(g, u, m);
    forall a: nat, b: nat | a < 4 && b < 4
      ensures !NonzeroSlot(m, a, b) ==> Term(g, u, m, a, b) == 0.0
      ensures Term(g, u, m, a, b) == Term(g, u, m, b, a)
    {
      TermsOfShape(g, u, m, a, b);
    }
  }

  /** The four acceleration slots of f_vec, read off its definition. */
  lemma FVecAccelerations(christoffels: (real, real, real) -> Tensor, mass: real, ld: real, vec: seq<real>)
    requires |vec| >= 8
    ensures var g, r := christoffels(vec[1], vec[2], mass), FVec(christoffels, mass, ld, vec);
      && r[4] == -2.0 * g(0, 0, 1) * vec[4] * vec[5]
      && r[5] == -1.0 * (g(1, 0, 0) * (vec[4] * vec[4]) + g(1, 1, 1) * (vec[5] * vec[5])
                       + g(1, 2, 2) * (vec[6] * vec[6]) + g(1, 3, 3) * (vec[7] * vec[7]))
      && r[6] == -2.0 * g(2, 2, 1) * vec[6] * vec[5] - 1.0 * g(2, 3, 3) * (vec[7] * vec[7])
      && r[7] == -2.0 * (g(3, 3, 1) * vec[7] * vec[5] + g(3, 3, 2) * vec[7] * vec[6])
  {
  }

  /** Slot 4, d²t/dλ². */
  lemma {:induction false} TimeAcceleration(christoffels: (real, real, real) -> Tensor, mass: real, ld: real, vec: seq<real>)
    requires |vec| >= 8
    requires SchwarzschildShape(christoffels(vec[1], vec[2], mass))
    ensures FVec(christoffels, mass, ld, vec)[4] == GeodesicAcceleration(christoffels(vec[1], vec[2], mass), vec[4..8], 0)
  {
    var g, u := christoffels(vec[1], vec[2], mass), vec[4..8];
    FVecAccelerations(christoffels, mass, ld, vec);
    ContractionOfShape(g, u, 0);
    TermAt(g, u, 0, 0, 1, vec[4], vec[5]);
    TwiceProduct(g(0, 0, 1), vec[4], vec[5]);
  }

  /** Slot 5, d²r/dλ². */
  lemma {:induction false} RadialAcceleration(christoffels: (real, real, real) -> Tensor, mass: real, ld: real, vec: seq<real>)
    requires |vec| >= 8
    requires SchwarzschildShape(christoffels(vec[1], vec[2], mass))
    ensures FVec(christoffels, mass, ld, vec)[5] == GeodesicAcceleration(christoffels(vec[1], vec[2], mass), vec[4..8], 1)
  {
    var g, u := christoffels(vec[1], vec[2], mass), vec[4..8];
    FVecAccelerations(christoffels, mass, ld, vec);
    ContractionOfShape(g, u, 1);
    TermAt(g, u, 1, 0, 0, vec[4], vec[4]);
    TermAt(g, u, 1, 1, 1, vec[5], vec[5]);
    TermAt(g, u, 1, 2, 2, vec[6], vec[6]);
    TermAt(g, u, 1, 3, 3, vec[7], vec[7]);
    SquareProduct(g(1, 0, 0), vec[4]);
    SquareProduct(g(1, 1, 1), vec[5]);
    SquareProduct(g(1, 2, 2), vec[6]);
    SquareProduct(g(1, 3, 3), vec[7]);
  }

  /** Slot 6, d²θ/dλ². */
  lemma {:induction false} PolarAcceleration(christoffels: (real, real, real) -> Tensor, mass: real, ld: real, vec: seq<real>)
    requires |vec| >= 8
    requires SchwarzschildShape(christoffels(vec[1], vec[2], mass))
    ensures FVec(christoffels, mass, ld, vec)[6] == GeodesicAcceleration(christoffels(vec[1], vec[2], mass), vec[4..8], 2)
  {
    var g, u := christoffels(vec[1], vec[2], mass), vec[4..8];
    FVecAccelerations(christoffels, mass, ld, vec);
    ContractionOfShape(g, u, 2);
    TermAt(g, u, 2, 2, 1, vec[6], vec[5]);
    TermAt(g, u, 2, 3, 3, vec[7], vec[7]);
    TwiceProduct(g(2, 2, 1), vec[6], vec[5]);
    SquareProduct(g(2, 3, 3), vec[7]);
  }

  /** Slot 7, d²φ/dλ². */
  lemma {:induction false} AzimuthalAcceleration(christoffels: (real, real, real) -> Tensor, mass: real, ld: real, vec: seq<real>)
    requires |vec| >= 8
    requires SchwarzschildShape(christoffels(vec[1], vec[2], mass))
    ensures FVec(christoffels, mass, ld, vec)[7] == GeodesicAcceleration(christoffels(vec[1], vec[2], mass), vec[4..8], 3)
  {
    var g, u := christoffels(vec[1], vec[2], mass), vec[4..8];
    FVecAccelerations(christoffels, mass, ld, vec);
    ContractionOfShape(g, u, 3);
    TermAt(g, u, 3, 3, 1, vec[7], vec[5]);
    TermAt(g, u, 3, 3, 2, vec[7], vec[6]);
  }

  /** For a tensor of Schwarzschild shape, each acceleration slot of f_vec is
      exactly the geodesic equation summed over all index pairs: the factors
      of 2 in f_vec account for the two orders of the lower indices, and the
      terms f_vec leaves out are the ones that vanish. */
  lemma {:induction false} FVecIsGeodesicEquation(christoffels: (real, real, real) -> Tensor, mass: real, ld: real, vec: seq<real>)
    requires |vec| >= 8
    requires SchwarzschildShape(christoffels(vec[1], vec[2], mass))
    ensures forall m: nat | m < 4 ::
      FVec(christoffels, mass, ld, vec)[4 + m] == GeodesicAcceleration(christoffels(vec[1], vec[2], mass), vec[4..8], m)
  {
    TimeAcceleration(christoffels, mass, ld, vec);
    RadialAcceleration(christoffels, mass, ld, vec);
    PolarAcceleration(christoffels, mass, ld, vec);
    AzimuthalAcceleration(christoffels, mass, ld, vec);
  }

  lemma TermAt(g: Tensor, u: seq<real>, m: nat, a: nat, b: nat, x: real, y: real)
    requires |u| == 4 && a < 4 && b < 4 && u[a] == x && u[b] == y
    ensures Term(g, u, m, a, b) == g(m, a, b) * x * y
  {
  }

  lemma TwiceProduct(c: real, a: real, b: real)
    ensures -2.0 * c * a * b == -(2.0 * (c * a * b))
  {
  }

  lemma SquareProduct(c: real, a: real)
    ensures c * (a * a) == c * a * a
  {
  }

  /** f_vec is a function of the state alone: the affine parameter does not
      enter it. */
  lemma FVecIgnoresLambda(christoffels: (real, real, real) -> Tensor, mass: real, ld1: real, ld2: real, vec: seq<real>)
    requires |vec| >= 8
    ensures FVec(christoffels, mass, ld1, vec) == FVec(christoffels, mass, ld2, vec)
  {
  }
}
