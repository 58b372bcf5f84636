/** The Franka arm interface of r2d2/franka/robot.py: the pure
    `create_action_dict`, and the `FrankaRobot` methods that turn actions into
    joint and gripper targets. The polymetis robot and gripper are replaced by
    sensor fields (the latest joint and gripper-width readings) and a log of
    the commands sent to them. */
module Franka {
  import opened Wrappers
  import opened Vectors
  import opened Rotations
  import opened Transformations

  /** The dictionary `get_robot_state` returns. */
  datatype RobotState = RobotState(eeState: Vec, jointPositions: Vec, jointVelocities: Vec)

  /** The `delta` argument of `create_action_dict`. Python's `delta in [True,
      False]` compares by equality, so the numbers 0 and 1 pass as well. */
  datatype DeltaArg = Flag(b: bool) | Number(x: real) | Other

  predicate IsBoolLike(d: DeltaArg)
  {
    d.Flag? || (d.Number? && (d.x == 0.0 || d.x == 1.0))
  }

  /** Python truthiness of an accepted `delta`. */
  predicate Truthy(d: DeltaArg)
    requires IsBoolLike(d)
  {
    if d.Flag? then d.b else d.x != 0.0
  }

  // ---------------------------------------------------------------- numpy broadcasting

  /** `np.array(a) + np.array(b)` for one-dimensional arrays: equal lengths
      add componentwise, a length-1 operand is repeated, anything else is a
      `ValueError`. */
  function BroadcastAdd(a: Vec, b: Vec): (r: Result<Vec>)
    ensures r.Ok? <==> |a| == |b| || |a| == 1 || |b| == 1
    ensures r.Err? ==> r.error == ValueError
    ensures r.Ok? && |a| == |b| ==> r.value == Add(a, b)
    ensures r.Ok? && |a| != |b| && |a| == 1 ==> |r.value| == |b| && forall i :: 0 <= i < |b| ==> r.value[i] == a[0] + b[i]
    ensures r.Ok? && |a| != |b| && |b| == 1 ==> |r.value| == |a| && forall i :: 0 <= i < |a| ==> r.value[i] == a[i] + b[0]
  {
    if |a| == |b| then Ok(Add(a, b))
    else if |a| == 1 then Ok(seq(|b|, i requires 0 <= i < |b| => a[0] + b[i]))
    else if |b| == 1 then Ok(seq(|a|, i requires 0 <= i < |a| => a[i] + b[0]))
    else Err(ValueError)
  }

  /** `a += b` on a one-dimensional torch tensor `a`: the result keeps
      `a`'s shape, so `b` must have `a`'s length or length 1 (it is then
      repeated); any other `b`, a longer one included, is a `RuntimeError`. */
  function InPlaceAdd(a: Vec, b: Vec): (r: Result<Vec>)
    ensures r.Ok? <==> |a| == |b| || |b| == 1
    ensures r.Err? ==> r.error == RuntimeError
    ensures r.Ok? ==> |r.value| == |a|
    ensures r.Ok? && |a| == |b| ==> r.value == Add(a, b)
    ensures r.Ok? && |a| != |b| ==> forall i :: 0 <= i < |a| ==> r.value[i] == a[i] + b[0]
  {
    if |a| == |b| then Ok(Add(a, b))
    else if |b| == 1 then Ok(seq(|a|, i requires 0 <= i < |a| => a[i] + b[0]))
    else Err(RuntimeError)
  }

  /** Where the in-place sum exists it is NumPy's sum; a single delta against
      several joint positions is one NumPy broadcasts and torch refuses. */
  lemma InPlaceAddIsNarrowerBroadcast(a: Vec, b: Vec)
    ensures InPlaceAdd(a, b).Ok? ==> BroadcastAdd(a, b) == InPlaceAdd(a, b)
    ensures |a| == 1 && |b| > 1 ==> BroadcastAdd(a, b).Ok? && InPlaceAdd(a, b) == Err(RuntimeError)
  {
    if InPlaceAdd(a, b).Ok? && |a| != |b| {
      assert BroadcastAdd(a, b).value == InPlaceAdd(a, b).value;
    }
  }

  /** `np.array(a) - np.array(b)`, broadcast as `BroadcastAdd`. */
  function BroadcastSub(a: Vec, b: Vec): (r: Result<Vec>)
    ensures r.Ok? <==> |a| == |b| || |a| == 1 || |b| == 1
    ensures r.Err? ==> r.error == ValueError
    ensures r.Ok? && |a| == |b| ==> r.value == Sub(a, b)
  {
    if |a| == |b| then Ok(Sub(a, b))
    else if |a| == 1 then Ok(seq(|b|, i requires 0 <= i < |b| => a[0] - b[i]))
    else if |b| == 1 then Ok(seq(|a|, i requires 0 <= i < |a| => a[i] - b[0]))
    else Err(ValueError)
  }

  lemma {:induction false} SubThenAdd(a: Vec, b: Vec)
    requires |a| == |b|
    ensures Add(Sub(a, b), b) == a
  {
    var s := Sub(a, b);
    assert forall i :: 0 <= i < |a| ==> Add(s, b)[i] == a[i];
  }

  // ---------------------------------------------------------------- create_action_dict

  /** The returned `action_dict`; the two cartesian keys exist only for the
      cartesian action space. */
  datatype ActionDict = ActionDict(
    gripper: real, gripperDelta: real,
    joint: Vec, jointDelta: Vec,
    cartesian: Option<Vec>, cartesianDelta: Option<Vec>)

  /** `create_action_dict`. The last action entry drives the gripper and the
      rest the arm, in cartesian pose or joint coordinates, as a delta from
      `robot_state` or as an absolute target. `ik` is the IK solver's joint
      delta for a cartesian delta. */
  function CreateActionDict<R>(m: RotationModel<R>, action: Vec, actionSpace: string, delta: DeltaArg,
                               rs: RobotState, ik: (Vec, RobotState) -> Vec): Result<ActionDict>
  {
    if actionSpace != "cartesian" && actionSpace != "joint" then Err(AssertionError)
    else if !IsBoolLike(delta) then Err(AssertionError)
    else if |action| == 0 || |rs.eeState| == 0 then Err(IndexError)
    else
      var last := action[|action| - 1];
      var current := rs.eeState[|rs.eeState| - 1];
      var arm := action[..|action| - 1];
      var eeArm := rs.eeState[..|rs.eeState| - 1];
      var d := Truthy(delta);
      var gripper := if d then Clip(current + last, 0.0, 1.0) else last;
      var gripperDelta := if d then last else Clip(last - current, 0.0, 1.0);
      if actionSpace == "cartesian" then
        var cartesian :- if d then AddPoses(m, arm, eeArm, false) else Ok(arm);
        var cartesianDelta :- if d then Ok(arm) else PoseDiff(m, arm, eeArm, false);
        var jointDelta := ik(cartesianDelta, rs);
        var joint :- BroadcastAdd(jointDelta, rs.jointPositions);
        Ok(ActionDict(gripper, gripperDelta, joint, jointDelta, Some(cartesian), Some(cartesianDelta)))
      else if d then
        var joint :- BroadcastAdd(arm, rs.jointPositions);
        Ok(ActionDict(gripper, gripperDelta, joint, arm, None, None))
      else
        var jointDelta :- BroadcastSub(arm, rs.jointPositions);
        Ok(ActionDict(gripper, gripperDelta, arm, jointDelta, None, None))
  }

  /** Both assertions, in both directions: an unknown action space or a
      non-boolean `delta` is an `AssertionError`, and nothing else is. */
  lemma CreateActionDictValidation<R>(m: RotationModel<R>, action: Vec, actionSpace: string, delta: DeltaArg,
                                      rs: RobotState, ik: (Vec, RobotState) -> Vec)
    ensures var r := CreateActionDict(m, action, actionSpace, delta, rs, ik);
      (r == Err(AssertionError) <==> !(actionSpace == "cartesian" || actionSpace == "joint") || !IsBoolLike(delta))
      && (r.Ok? ==> |action| >= 1 && |rs.eeState| >= 1)
  {
  }

  /** Delta mode: `gripper_delta` is the last entry and `gripper` the clipped
      sum with the current gripper state. Absolute mode: `gripper` is the last
      entry, unclipped, and `gripper_delta` the clipped difference, so a
      negative difference becomes 0. */
  lemma GripperFields<R>(m: RotationModel<R>, action: Vec, actionSpace: string, delta: DeltaArg,
                         rs: RobotState, ik: (Vec, RobotState) -> Vec)
    ensures var r := CreateActionDict(m, action, actionSpace, delta, rs, ik);
      r.Ok? ==>
        var last := action[|action| - 1];
        var current := rs.eeState[|rs.eeState| - 1];
        (Truthy(delta) ==> r.value.gripperDelta == last && r.value.gripper == Clip(current + last, 0.0, 1.0)
                           && 0.0 <= r.value.gripper <= 1.0)
        && (!Truthy(delta) ==> r.value.gripper == last && r.value.gripperDelta == Clip(last - current, 0.0, 1.0)
                               && (last <= current ==> r.value.gripperDelta == 0.0))
  {
  }

  /** The cartesian keys are present exactly for the cartesian action space,
      and the joint action space takes its joint fields from the action. */
  lemma ActionDictKeys<R>(m: RotationModel<R>, action: Vec, actionSpace: string, delta: DeltaArg,
                          rs: RobotState, ik: (Vec, RobotState) -> Vec)
    ensures var r := CreateActionDict(m, action, actionSpace, delta, rs, ik);
      r.Ok? ==>
        var arm := action[..|action| - 1];
        (r.value.cartesian.Some? <==> actionSpace == "cartesian")
        && (r.value.cartesianDelta.Some? <==> actionSpace == "cartesian")
        && (actionSpace == "joint" && Truthy(delta) ==> r.value.jointDelta == arm)
        && (actionSpace == "joint" && !Truthy(delta) ==> r.value.joint == arm)
        && (actionSpace == "cartesian" && Truthy(delta) ==> r.value.cartesianDelta == Some(arm))
        && (actionSpace == "cartesian" && !Truthy(delta) ==> r.value.cartesian == Some(arm))
        && (actionSpace == "cartesian" ==> r.value.jointDelta == ik(r.value.cartesianDelta.value, rs))
  {
  }

  /** In every mode the joint target is the joint delta added to the current
      joint positions, whenever the two have the positions' length. */
  lemma JointIsDeltaPlusPositions<R>(m: RotationModel<R>, action: Vec, actionSpace: string, delta: DeltaArg,
                                     rs: RobotState, ik: (Vec, RobotState) -> Vec)
    ensures var r := CreateActionDict(m, action, actionSpace, delta, rs, ik);
      r.Ok? && |r.value.joint| == |rs.jointPositions| && |r.value.jointDelta| == |rs.jointPositions| ==>
        r.value.joint == Add(r.value.jointDelta, rs.jointPositions)
  {
    var r := CreateActionDict(m, action, actionSpace, delta, rs, ik);
    if r.Ok? && |r.value.joint| == |rs.jointPositions| && |r.value.jointDelta| == |rs.jointPositions|
       && actionSpace == "joint" && !Truthy(delta) {
      SubThenAdd(action[..|action| - 1], rs.jointPositions);
    }
  }

  /** In both cartesian modes the target position is the delta position added
      to the current one, and (under the rotation laws) the target rotation is
      the delta rotation applied to the current one. */
  lemma CartesianIsDeltaPlusPose<R(!new)>(m: RotationModel<R>, action: Vec, delta: DeltaArg,
                                          rs: RobotState, ik: (Vec, RobotState) -> Vec)
    requires Lawful(m)
    ensures var r := CreateActionDict(m, action, "cartesian", delta, rs, ik);
      r.Ok? ==>
        var eeArm := rs.eeState[..|rs.eeState| - 1];
        var sum := AddPoses(m, r.value.cartesianDelta.value, eeArm, false);
        sum.Ok?
        && r.value.cartesian.value[..3] == sum.value[..3]
        && FromEuler(m, r.value.cartesian.value[3..6], false) == FromEuler(m, sum.value[3..6], false)
  {
    var r := CreateActionDict(m, action, "cartesian", delta, rs, ik);
    if r.Ok? && !Truthy(delta) {
      var arm := action[..|action| - 1];
      var eeArm := rs.eeState[..|rs.eeState| - 1];
      assert r.value.cartesian == Some(arm) && r.value.cartesianDelta == Some(PoseDiff(m, arm, eeArm, false).value);
      AbsolutePoseRoundTrip(m, arm, eeArm);
    }
  }

  /** Adding back the difference between an absolute pose and the current
      pose restores the absolute position and rotation. */
  lemma AbsolutePoseRoundTrip<R(!new)>(m: RotationModel<R>, target: Vec, source: Vec)
    requires Lawful(m) && |target| >= 6 && |source| >= 6
    ensures PoseDiff(m, target, source, false).Ok?
    ensures var sum := AddPoses(m, PoseDiff(m, target, source, false).value, source, false);
      sum.Ok? && sum.value[..3] == target[..3]
      && FromEuler(m, sum.value[3..6], false) == FromEuler(m, target[3..6], false)
  {
    AngleRoundTrip(m, target[3..6], source[3..6]);
    PoseSumOfDiff(m, target, source);
  }

  lemma PoseSumOfDiff<R>(m: RotationModel<R>, target: Vec, source: Vec)
    requires |target| >= 6 && |source| >= 6
    ensures PoseDiff(m, target, source, false).Ok?
    ensures var sum := AddPoses(m, PoseDiff(m, target, source, false).value, source, false);
      sum.Ok? && sum.value[..3] == target[..3]
      && sum.value[3..6] == AddAngles(m, AngleDiff(m, target[3..6], source[3..6], false), source[3..6], false)
  {
    TranslationRoundTrip(m, target, source, target, false);
    var angles: Vec := AngleDiff(m, target[3..6], source[3..6], false);
    var p: Vec := PoseDiff(m, target, source, false).value;
    assert p == Sub(target[..3], source[..3]) + angles;
    assert p[3..6] == angles;
    var sum: Vec := AddPoses(m, p, source, false).value;
    assert sum == Add(p[..3], source[..3]) + AddAngles(m, p[3..6], source[3..6], false);
  }

  // ---------------------------------------------------------------- the robot object

  /** A command sent to the hardware: a joint-position target or a gripper
      width, blocking or not. */
  datatype Command =
    | JointTarget(joints: Vec, blocking: bool)
    | GripperGoto(width: real, blocking: bool)

  /** The gripper width that closes the gripper to `close` (0 open, 1 closed). */
  function GripperWidth(maxWidth: real, close: real): (w: real)
    requires 0.0 < maxWidth
    ensures 0.0 <= close <= 1.0 ==> 0.0 <= w <= maxWidth
  {
    maxWidth * (1.0 - close)
  }

  /** `get_gripper_state` for a measured width. */
  function GripperState(maxWidth: real, width: real): real
    requires 0.0 < maxWidth
  {
    1.0 - width / maxWidth
  }

  /** Reading the state of a gripper at the commanded width gives back the
      closing fraction, and the width for a state gives back the width. */
  lemma GripperStateInvertsWidth(maxWidth: real, close: real, width: real)
    requires 0.0 < maxWidth
    ensures GripperState(maxWidth, GripperWidth(maxWidth, close)) == close
    ensures GripperWidth(maxWidth, GripperState(maxWidth, width)) == width
  {
    var c := 1.0 - close;
    MulDivCancel(c, maxWidth);
    var w := GripperWidth(maxWidth, close);
    assert w == maxWidth * c;
    assert w / maxWidth == c;
    assert maxWidth * (width / maxWidth) == width;
  }

  lemma MulDivCancel(x: real, k: real)
    requires k != 0.0
    ensures k * x / k == x
  {
    var q := k * x / k;
    assert q * k == k * x;
    assert (q - x) * k == 0.0;
  }

  class FrankaRobot<R> {
    const rot: RotationModel<R>
    const maxGripperWidth: real                 // the gripper's `metadata.max_width`
    const ik: (Vec, RobotState) -> Vec          // `RobotIKSolver.compute(...)[0]`
    const forwardKinematics: Vec -> (Vec3, Quat)

    // the latest hardware readings
    var jointPositions: Vec
    var jointVelocities: Vec
    var gripperWidth: real

    var commands: seq<Command>

    constructor (rot: RotationModel<R>, maxGripperWidth: real, ik: (Vec, RobotState) -> Vec,
                 forwardKinematics: Vec -> (Vec3, Quat), jointPositions: Vec, jointVelocities: Vec, gripperWidth: real)
      requires 0.0 < maxGripperWidth
      ensures this.rot == rot && this.maxGripperWidth == maxGripperWidth && this.ik == ik
      ensures this.forwardKinematics == forwardKinematics
      ensures this.jointPositions == jointPositions && this.jointVelocities == jointVelocities
      ensures this.gripperWidth == gripperWidth
      ensures commands == []
    {
      this.rot := rot;
      this.maxGripperWidth := maxGripperWidth;
      this.ik := ik;
      this.forwardKinematics := forwardKinematics;
      this.jointPositions := jointPositions;
      this.jointVelocities := jointVelocities;
      this.gripperWidth := gripperWidth;
      commands := [];
    }

    /** `get_gripper_state`: 0 fully open, 1 fully closed. */
    function GetGripperState(): (s: real)
      reads this
      requires 0.0 < maxGripperWidth
      ensures 0.0 <= gripperWidth <= maxGripperWidth ==> 0.0 <= s <= 1.0
      ensures GripperWidth(maxGripperWidth, s) == gripperWidth
    {
      GripperStateInvertsWidth(maxGripperWidth, 0.0, gripperWidth);
      GripperState(maxGripperWidth, gripperWidth)
    }

    /** `get_robot_state`: the end-effector pose from forward kinematics, as
        position, Euler angles and gripper state, with the joint readings. */
    function GetRobotState(): (s: RobotState)
      reads this
      requires 0.0 < maxGripperWidth
      ensures |s.eeState| == 7 && s.eeState[6] == GetGripperState()
      ensures s.jointPositions == jointPositions && s.jointVelocities == jointVelocities
    {
      var (pos, quat) := forwardKinematics(jointPositions);
      RobotState(pos + QuatToEuler(rot, quat, false) + [GetGripperState()], jointPositions, jointVelocities)
    }

    /** `update_joints`: the target is absolute, or a delta added in place
        (torch `+=`) to the current joint positions. */
    method UpdateJoints(joints: Vec, delta: bool, blocking: bool) returns (r: Result<()>)
      modifies this`commands
      ensures !delta ==> r.Ok? && commands == old(commands) + [JointTarget(joints, blocking)]
      ensures delta ==>
        var target := InPlaceAdd(joints, jointPositions);
        (target.Err? ==> r == Err(RuntimeError) && commands == old(commands))
        && (target.Ok? ==> r.Ok? && |target.value| == |joints|
                           && commands == old(commands) + [JointTarget(target.value, blocking)])
    {
      var desired := joints;
      if delta {
        var sum := InPlaceAdd(joints, jointPositions);
        if sum.Err? {
          return Err(RuntimeError);
        }
        desired := sum.value;
      }
      commands := commands + [JointTarget(desired, blocking)];
      return Ok(());
    }

    /** `update_gripper`: the closing fraction, made absolute in delta mode
        and clipped to [0, 1], becomes a width in [0, max width]. */
    method UpdateGripper(closePercentage: real, delta: bool, blocking: bool)
      modifies this`commands
      requires 0.0 < maxGripperWidth
      ensures var close := Clip(if delta then closePercentage + GetGripperState() else closePercentage, 0.0, 1.0);
        commands == old(commands) + [GripperGoto(GripperWidth(maxGripperWidth, close), blocking)]
      ensures 0.0 <= commands[|commands| - 1].width <= maxGripperWidth
    {
      var close := closePercentage;
      if delta {
        close := close + GetGripperState();
      }
      close := Clip(close, 0.0, 1.0);
      commands := commands + [GripperGoto(maxGripperWidth * (1.0 - close), blocking)];
    }

    /** `update_command`: the action dictionary for the current robot state,
        sent as absolute joint and gripper targets. */
    method UpdateCommand(action: Vec, actionSpace: string, delta: DeltaArg, blocking: bool)
      returns (r: Result<ActionDict>)
      modifies this`commands
      requires 0.0 < maxGripperWidth
      ensures r == CreateActionDict(rot, action, actionSpace, delta, old(GetRobotState()), ik)
      ensures r.Err? ==> commands == old(commands)
      ensures r.Ok? ==>
        commands == old(commands) + [JointTarget(r.value.joint, blocking),
                                     GripperGoto(GripperWidth(maxGripperWidth, Clip(r.value.gripper, 0.0, 1.0)), blocking)]
    {
      r := CreateActionDict(rot, action, actionSpace, delta, GetRobotState(), ik);
      if r.Err? {
        return;
      }
      var _ := UpdateJoints(r.value.joint, false, blocking);
      UpdateGripper(r.value.gripper, false, blocking);
    }
  }
}
