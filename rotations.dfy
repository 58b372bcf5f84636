/** An abstract model of scipy's `Rotation` class. A `RotationModel` bundles
    the group operations (composition, inverse, identity) with the conversions
    to and from 'xyz' Euler angles in radians, quaternions and rotation
    matrices. The laws these satisfy are stated by `Lawful` and taken as
    hypotheses by the lemmas that need them; floating-point error is not
    modelled. */
module Rotations {
  import opened Vectors

  type Mat3 = seq<seq<real>>

  datatype RotationModel<!R> = RotationModel(
    compose: (R, R) -> R,     // `a * b`: apply b, then a
    inv: R -> R,              // `a.inv()`
    identity: R,
    fromEuler: Vec3 -> R,     // `from_euler('xyz', e)`, radians
    toEuler: R -> Vec3,       // `as_euler('xyz')`, radians
    fromQuat: Quat -> R,      // `from_quat(q)`
    toQuat: R -> Quat,        // `as_quat()`
    fromMatrix: Mat3 -> R,    // `from_matrix(m)`
    toMatrix: R -> Mat3,      // `as_matrix()`
    radPerDeg: real,          // pi / 180
    degPerRad: real)          // 180 / pi

  ghost predicate IsGroup<R(!new)>(m: RotationModel<R>)
  {
    (forall a, b, c :: m.compose(m.compose(a, b), c) == m.compose(a, m.compose(b, c)))
    && (forall a :: m.compose(a, m.identity) == a)
    && (forall a :: m.compose(m.identity, a) == a)
    && (forall a :: m.compose(a, m.inv(a)) == m.identity)
    && (forall a :: m.compose(m.inv(a), a) == m.identity)
  }

  /** Every conversion out of a rotation can be converted back to it. */
  ghost predicate ConversionsInvertible<R(!new)>(m: RotationModel<R>)
  {
    (forall r :: m.fromEuler(m.toEuler(r)) == r)
    && (forall r :: m.fromQuat(m.toQuat(r)) == r)
    && (forall r :: m.fromMatrix(m.toMatrix(r)) == r)
  }

  ghost predicate Lawful<R(!new)>(m: RotationModel<R>)
  {
    IsGroup(m)
    && ConversionsInvertible(m)
    && m.toEuler(m.identity) == [0.0, 0.0, 0.0]
    && 0.0 < m.radPerDeg && m.radPerDeg * m.degPerRad == 1.0
  }

  /** The cancellation laws, derived from the group laws by `GroupCancels`.
      Proofs that also use the conversion laws take these instead of
      associativity, which keeps the solver's instantiations small. */
  ghost predicate Cancels<R(!new)>(m: RotationModel<R>)
  {
    (forall a, b :: m.compose(m.compose(a, m.inv(b)), b) == a)
    && (forall a, b :: m.compose(m.compose(a, b), m.inv(b)) == a)
  }

  lemma GroupCancels<R(!new)>(m: RotationModel<R>)
    requires IsGroup(m)
    ensures Cancels(m)
  {
    forall a, b
      ensures m.compose(m.compose(a, m.inv(b)), b) == a
      ensures m.compose(m.compose(a, b), m.inv(b)) == a
    {
      calc {
        m.compose(m.compose(a, m.inv(b)), b);
        m.compose(a, m.compose(m.inv(b), b));
        a;
      }
      calc {
        m.compose(m.compose(a, b), m.inv(b));
        m.compose(a, m.compose(b, m.inv(b)));
        a;
      }
    }
  }

  /** Rotations about one axis, as the additive group of angles; the degree
      factor is 2 rather than pi/180. This is one model satisfying `Lawful`,
      used to exhibit behaviour that the laws alone do not rule out. */
  function AxisModel(): (m: RotationModel<real>)
    ensures Lawful(m)
  {
    RotationModel(
      (a: real, b: real) => a + b,
      (a: real) => -a,
      0.0,
      (e: Vec3) => e[0],
      (r: real) => [r, 0.0, 0.0],
      (q: Quat) => q[0],
      (r: real) => [r, 0.0, 0.0, 0.0],
      (x: Mat3) => if |x| > 0 && |x[0]| > 0 then x[0][0] else 0.0,
      (r: real) => [[r]],
      2.0,
      0.5)
  }
}
