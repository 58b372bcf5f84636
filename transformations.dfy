/** The pose algebra of r2d2/misc/transformations.py. A pose is a sequence of
    reals whose first three entries are a position and whose entries 3..6 are
    'xyz' Euler angles; rotations go through an abstract `RotationModel`. */
module Transformations {
  import opened Wrappers
  import opened Vectors
  import opened Rotations

  /** `R.from_euler('xyz', e, degrees=degrees)`. */
  function FromEuler<R>(m: RotationModel<R>, e: Vec3, degrees: bool): R
  {
    m.fromEuler(if degrees then Scale(e, m.radPerDeg) else e)
  }

  /** `r.as_euler('xyz', degrees=degrees)`. */
  function AsEuler<R>(m: RotationModel<R>, r: R, degrees: bool): Vec3
  {
    if degrees then Scale(m.toEuler(r), m.degPerRad) else m.toEuler(r)
  }

  function QuatToEuler<R>(m: RotationModel<R>, q: Quat, degrees: bool): Vec3
  {
    AsEuler(m, m.fromQuat(q), degrees)
  }

  function EulerToQuat<R>(m: RotationModel<R>, e: Vec3, degrees: bool): Quat
  {
    m.toQuat(FromEuler(m, e, degrees))
  }

  function RmatToEuler<R>(m: RotationModel<R>, x: Mat3, degrees: bool): Vec3
  {
    AsEuler(m, m.fromMatrix(x), degrees)
  }

  function EulerToRmat<R>(m: RotationModel<R>, e: Vec3, degrees: bool): Mat3
  {
    m.toMatrix(FromEuler(m, e, degrees))
  }

  function RmatToQuat<R>(m: RotationModel<R>, x: Mat3): Quat
  {
    m.toQuat(m.fromMatrix(x))
  }

  /** As written, the body reads the name `euler`, which is bound nowhere in
      the function or the module, so every call raises `NameError`. */
  function QuatToRmat<R>(m: RotationModel<R>, q: Quat, degrees: bool): (r: Result<Mat3>)
    ensures r == Err(NameError)
  {
    Err(NameError)
  }

  /** The rotation taking `source` to `target`, as a quaternion. */
  function QuatDiff<R>(m: RotationModel<R>, target: Quat, source: Quat): Quat
  {
    m.toQuat(m.compose(m.fromQuat(target), m.inv(m.fromQuat(source))))
  }

  /** The rotation taking `source` to `target`, as Euler angles. The inputs
      are read in degrees when `degrees` is set, but the result is always in
      radians. */
  function AngleDiff<R>(m: RotationModel<R>, target: Vec3, source: Vec3, degrees: bool): Vec3
  {
    m.toEuler(m.compose(FromEuler(m, target, degrees), m.inv(FromEuler(m, source, degrees))))
  }

  /** Position difference followed by `AngleDiff`; numpy and scipy reject
      poses too short to hold a position and three angles. */
  function PoseDiff<R>(m: RotationModel<R>, target: Vec, source: Vec, degrees: bool): Result<Vec>
  {
    if |target| < 6 || |source| < 6 then Err(ValueError)
    else Ok(Sub(target[..3], source[..3]) + AngleDiff(m, target[3..6], source[3..6], degrees))
  }

  /** As written, the body reads the name `target`, which is not a parameter
      (the parameter is `delta`), so every call raises `NameError`. */
  function QuatAdd<R>(m: RotationModel<R>, delta: Quat, source: Quat): (r: Result<Quat>)
    ensures r == Err(NameError)
  {
    Err(NameError)
  }

  /** Applies the rotation `delta` after `source`; the result honours `degrees`. */
  function AddAngles<R>(m: RotationModel<R>, delta: Vec3, source: Vec3, degrees: bool): Vec3
  {
    AsEuler(m, m.compose(FromEuler(m, delta, degrees), FromEuler(m, source, degrees)), degrees)
  }

  function AddPoses<R>(m: RotationModel<R>, delta: Vec, source: Vec, degrees: bool): Result<Vec>
  {
    if |delta| < 6 || |source| < 6 then Err(ValueError)
    else Ok(Add(delta[..3], source[..3]) + AddAngles(m, delta[3..6], source[3..6], degrees))
  }

  // ---------------------------------------------------------------- shape

  lemma PoseDiffShape<R>(m: RotationModel<R>, target: Vec, source: Vec, degrees: bool)
    ensures PoseDiff(m, target, source, degrees).Ok? <==> |target| >= 6 && |source| >= 6
    ensures PoseDiff(m, target, source, degrees).Err? ==> PoseDiff(m, target, source, degrees).error == ValueError
    ensures PoseDiff(m, target, source, degrees).Ok? ==>
      var r := PoseDiff(m, target, source, degrees).value;
      |r| == 6
      && (forall i :: 0 <= i < 3 ==> r[i] == target[i] - source[i])
      && r[3..] == AngleDiff(m, target[3..6], source[3..6], degrees)
  {
  }

  lemma AddPosesShape<R>(m: RotationModel<R>, delta: Vec, source: Vec, degrees: bool)
    ensures AddPoses(m, delta, source, degrees).Ok? <==> |delta| >= 6 && |source| >= 6
    ensures AddPoses(m, delta, source, degrees).Err? ==> AddPoses(m, delta, source, degrees).error == ValueError
    ensures AddPoses(m, delta, source, degrees).Ok? ==>
      var r := AddPoses(m, delta, source, degrees).value;
      |r| == 6
      && (forall i :: 0 <= i < 3 ==> r[i] == delta[i] + source[i])
      && r[3..] == AddAngles(m, delta[3..6], source[3..6], degrees)
  {
  }

  // ---------------------------------------------------------------- round trips

  /** Adding back a pose difference restores the target position, and taking
      the difference of a sum restores the delta position. */
  lemma TranslationRoundTrip<R>(m: RotationModel<R>, t: Vec, s: Vec, d: Vec, degrees: bool)
    requires |t| >= 6 && |s| >= 6 && |d| >= 6
    ensures PoseDiff(m, t, s, degrees).Ok?
    ensures AddPoses(m, PoseDiff(m, t, s, degrees).value, s, degrees).Ok?
    ensures AddPoses(m, PoseDiff(m, t, s, degrees).value, s, degrees).value[..3] == t[..3]
    ensures AddPoses(m, d, s, degrees).Ok?
    ensures PoseDiff(m, AddPoses(m, d, s, degrees).value, s, degrees).Ok?
    ensures PoseDiff(m, AddPoses(m, d, s, degrees).value, s, degrees).value[..3] == d[..3]
  {
    var p := PoseDiff(m, t, s, degrees).value;
    var a := AddPoses(m, p, s, degrees).value;
    assert a[..3] == t[..3] by {
      forall i | 0 <= i < 3 ensures a[i] == t[i] { assert p[i] == t[i] - s[i]; }
    }
    var q := AddPoses(m, d, s, degrees).value;
    var b := PoseDiff(m, q, s, degrees).value;
    assert b[..3] == d[..3] by {
      forall i | 0 <= i < 3 ensures b[i] == d[i] { assert q[i] == d[i] + s[i]; }
    }
  }

  /** Applying the radian difference back in radians gives the target rotation. */
  lemma AngleRoundTrip<R(!new)>(m: RotationModel<R>, target: Vec3, source: Vec3)
    requires Lawful(m)
    ensures FromEuler(m, AddAngles(m, AngleDiff(m, target, source, false), source, false), false)
         == FromEuler(m, target, false)
  {
    GroupCancels(m);
    CancelledAngleRoundTrips(m, target, source);
  }

  /** The difference of a sum is the delta, as a rotation. */
  lemma AngleRoundTripInverse<R(!new)>(m: RotationModel<R>, delta: Vec3, source: Vec3)
    requires Lawful(m)
    ensures FromEuler(m, AngleDiff(m, AddAngles(m, delta, source, false), source, false), false)
         == FromEuler(m, delta, false)
  {
    GroupCancels(m);
    CancelledAngleRoundTrips(m, delta, source);
  }

  lemma CancelledAngleRoundTrips<R(!new)>(m: RotationModel<R>, a: Vec3, source: Vec3)
    requires Cancels(m) && ConversionsInvertible(m)
    ensures FromEuler(m, AddAngles(m, AngleDiff(m, a, source, false), source, false), false)
         == FromEuler(m, a, false)
    ensures FromEuler(m, AngleDiff(m, AddAngles(m, a, source, false), source, false), false)
         == FromEuler(m, a, false)
  {
  }

  /** The difference of a quaternion with itself is the identity rotation. */
  lemma QuatDiffSelf<R(!new)>(m: RotationModel<R>, q: Quat)
    requires Lawful(m)
    ensures m.fromQuat(QuatDiff(m, q, q)) == m.identity
  {
  }

  /** The Euler angles between two null rotations are zero. */
  lemma QuatDiffOfSelfDiffs<R(!new)>(m: RotationModel<R>, q1: Quat, q2: Quat)
    requires Lawful(m)
    ensures QuatToEuler(m, QuatDiff(m, QuatDiff(m, q1, q1), QuatDiff(m, q2, q2)), false) == [0.0, 0.0, 0.0]
  {
    var i := m.identity;
    assert m.fromQuat(QuatDiff(m, q1, q1)) == i;
    assert m.fromQuat(QuatDiff(m, q2, q2)) == i;
    assert m.compose(i, m.inv(i)) == i;
    assert m.fromQuat(m.toQuat(i)) == i;
  }

  /** In degree mode `AngleDiff` reads its inputs as degrees and still answers
      in radians, while `AddAngles` answers in degrees. */
  lemma DegreeHandling<R>(m: RotationModel<R>, a: Vec3, b: Vec3)
    ensures AngleDiff(m, a, b, true)
         == AngleDiff(m, Scale(a, m.radPerDeg), Scale(b, m.radPerDeg), false)
    ensures AddAngles(m, a, b, true)
         == Scale(AddAngles(m, Scale(a, m.radPerDeg), Scale(b, m.radPerDeg), false), m.degPerRad)
  {
  }

  // ---------------------------------------------------------------- corrected forms

  /** `angle_diff` answering in the unit its inputs were given in. */
  function AngleDiffIntended<R>(m: RotationModel<R>, target: Vec3, source: Vec3, degrees: bool): Vec3
  {
    AsEuler(m, m.compose(FromEuler(m, target, degrees), m.inv(FromEuler(m, source, degrees))), degrees)
  }

  lemma FromAsEuler<R(!new)>(m: RotationModel<R>, r: R, degrees: bool)
    requires ConversionsInvertible(m) && m.degPerRad * m.radPerDeg == 1.0
    ensures FromEuler(m, AsEuler(m, r, degrees), degrees) == r
  {
    if degrees {
      var e: Vec, a, b := m.toEuler(r), m.degPerRad, m.radPerDeg;
      ScaleScale(e, a, b);
      assert a * b == 1.0;
      assert Scale(Scale(e, a), b) == Scale(e, 1.0);
      ScaleOne(e);
      assert FromEuler(m, AsEuler(m, r, true), true) == m.fromEuler(e);
    }
  }

  /** The corrected difference agrees with the original in radian mode. */
  lemma AngleDiffIntendedInRadians<R>(m: RotationModel<R>, target: Vec3, source: Vec3)
    ensures AngleDiffIntended(m, target, source, false) == AngleDiff(m, target, source, false)
  {
  }

  /** With the corrected difference, adding it back gives the target rotation
      in both units. */
  lemma AngleDiffIntendedRoundTrip<R(!new)>(m: RotationModel<R>, target: Vec3, source: Vec3, degrees: bool)
    requires Lawful(m)
    ensures FromEuler(m, AddAngles(m, AngleDiffIntended(m, target, source, degrees), source, degrees), degrees)
         == FromEuler(m, target, degrees)
  {
    GroupCancels(m);
    CancelledIntendedRoundTrip(m, target, source, degrees);
  }

  lemma CancelledIntendedRoundTrip<R(!new)>(m: RotationModel<R>, target: Vec3, source: Vec3, degrees: bool)
    requires Cancels(m) && ConversionsInvertible(m) && m.degPerRad * m.radPerDeg == 1.0
    ensures FromEuler(m, AddAngles(m, AngleDiffIntended(m, target, source, degrees), source, degrees), degrees)
         == FromEuler(m, target, degrees)
  {
    var t, s := FromEuler(m, target, degrees), FromEuler(m, source, degrees);
    var d := m.compose(t, m.inv(s));
    FromAsEuler(m, d, degrees);
    FromAsEuler(m, m.compose(d, s), degrees);
  }

  /** As written, the round trip through `angle_diff` and `add_angles` in
      degree mode can miss the target: in `AxisModel`, target 1 and source 0
      come back as 2. */
  lemma AngleDiffDegreesRoundTripFails()
    ensures var m := AxisModel();
      FromEuler(m, AddAngles(m, AngleDiff(m, [1.0, 0.0, 0.0], [0.0, 0.0, 0.0], true), [0.0, 0.0, 0.0], true), true)
      != FromEuler(m, [1.0, 0.0, 0.0], true)
  {
    var m := AxisModel();
    assert AngleDiff(m, [1.0, 0.0, 0.0], [0.0, 0.0, 0.0], true) == [2.0, 0.0, 0.0];
    assert AddAngles(m, [2.0, 0.0, 0.0], [0.0, 0.0, 0.0], true) == [2.0, 0.0, 0.0];
  }

  /** `quat_add` applying `delta` after `source`, as its name and signature say. */
  function QuatAddIntended<R>(m: RotationModel<R>, delta: Quat, source: Quat): Quat
  {
    m.toQuat(m.compose(m.fromQuat(delta), m.fromQuat(source)))
  }

  /** Adding a quaternion difference back restores the target rotation. */
  lemma QuatAddIntendedRoundTrip<R(!new)>(m: RotationModel<R>, target: Quat, source: Quat)
    requires Lawful(m)
    ensures m.fromQuat(QuatAddIntended(m, QuatDiff(m, target, source), source)) == m.fromQuat(target)
  {
    GroupCancels(m);
    CancelledQuatRoundTrip(m, target, source);
  }

  lemma CancelledQuatRoundTrip<R(!new)>(m: RotationModel<R>, target: Quat, source: Quat)
    requires Cancels(m) && ConversionsInvertible(m)
    ensures m.fromQuat(QuatAddIntended(m, QuatDiff(m, target, source), source)) == m.fromQuat(target)
  {
  }

  /** As written, `quat_add` cannot complete that round trip: it always fails. */
  lemma QuatAddRoundTripFails<R>(m: RotationModel<R>, target: Quat, source: Quat)
    ensures QuatAdd(m, QuatDiff(m, target, source), source).Err?
  {
  }

  /** `quat_to_rmat` converting its quaternion argument. */
  function QuatToRmatIntended<R>(m: RotationModel<R>, q: Quat): Mat3
  {
    m.toMatrix(m.fromQuat(q))
  }

  lemma QuatToRmatIntendedRoundTrip<R(!new)>(m: RotationModel<R>, q: Quat)
    requires Lawful(m)
    ensures m.fromQuat(RmatToQuat(m, QuatToRmatIntended(m, q))) == m.fromQuat(q)
  {
  }
}
