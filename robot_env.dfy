/** The gym environment of r2d2/robot_env.py: action checking and velocity
    limiting in `step`, the reset sequence, the flag logic of
    `get_observation` and the hand-camera adjustment of the calibration in
    `get_camera_extrinsics`. The robot is a `Franka.FrankaRobot`; the camera
    wrapper, the clock and `change_pose_frame` are inputs. */
module RobotEnvironment {
  import opened Wrappers
  import opened Vectors
  import opened Franka
  import opened PyStrings

  const MaxLinVel: real := 2.0
  const MaxRotVel: real := 2.0
  const MaxGripperVel: real := 4.0
  const DoF: nat := 6
  const Hz: real := 15.0

  /** The double nearest to pi, the value of `np.pi`. */
  const NpPi: real := 3.141592653589793

  function ResetJoints(): (j: Vec)
    ensures |j| == DoF + 1
  {
    [0.0, -NpPi / 4.0, 0.0, -3.0 / 4.0 * NpPi, 0.0, NpPi / 2.0, 0.0]
  }

  // ---------------------------------------------------------------- velocity limiting

  /** `_limit_velocity`: linear and angular parts and the gripper entry are
      each normalised when their norm exceeds 1, then scaled by their maximum
      velocity over the control rate. An action shorter than 7 fails at
      `action[6]`. */
  function LimitVelocity(norm: Vec -> real, action: Vec): (r: Result<Vec>)
    ensures r.Ok? <==> |action| >= DoF + 1
    ensures r.Err? ==> r.error == IndexError
    ensures r.Ok? ==> |r.value| == DoF + 1
  {
    if |action| < DoF + 1 then Err(IndexError)
    else
      var lin := LimitNorm(norm, action[..3], 1.0);
      var rot := LimitNorm(norm, action[3..6], 1.0);
      Ok(Scale(lin, MaxLinVel / Hz) + Scale(rot, MaxRotVel / Hz) + [GripperVelocity(action[6])])
  }

  /** The limited action is ordered linear, angular, gripper. The two arm parts
      have norm at most 2/15, each is a positive multiple of its input, and it
      is exactly the input times 2/15 when the input's norm is at most 1. The
      gripper entry has magnitude at most 4/15, keeps its sign, and is the
      input times 4/15 when the input is in [-1, 1]. */
  lemma LimitVelocityBounds(norm: Vec -> real, action: Vec)
    requires IsNorm(norm) && |action| >= DoF + 1
    ensures var r := LimitVelocity(norm, action).value;
      norm(r[..3]) <= 2.0 / 15.0 && norm(r[3..6]) <= 2.0 / 15.0 && Abs(r[6]) <= 4.0 / 15.0
      && (exists c: real :: 0.0 < c && r[..3] == Scale(action[..3], c))
      && (exists c: real :: 0.0 < c && r[3..6] == Scale(action[3..6], c))
      && (norm(action[..3]) <= 1.0 ==> r[..3] == Scale(action[..3], 2.0 / 15.0))
      && (norm(action[3..6]) <= 1.0 ==> r[3..6] == Scale(action[3..6], 2.0 / 15.0))
      && (Abs(action[6]) <= 1.0 ==> r[6] == action[6] * 4.0 / 15.0)
      && (0.0 <= action[6] <==> 0.0 <= r[6])
  {
    LimitVelocityLayout(norm, action);
    PartBound(norm, action[..3]);
    PartBound(norm, action[3..6]);
    GripperBound(action[6]);
  }

  lemma LimitVelocityLayout(norm: Vec -> real, action: Vec)
    requires |action| >= DoF + 1
    ensures var r := LimitVelocity(norm, action).value;
      r[..3] == Scale(LimitNorm(norm, action[..3], 1.0), 2.0 / 15.0)
      && r[3..6] == Scale(LimitNorm(norm, action[3..6], 1.0), 2.0 / 15.0)
      && r[6] == GripperVelocity(action[6])
  {
    var r := LimitVelocity(norm, action).value;
    var lin: Vec := Scale(LimitNorm(norm, action[..3], 1.0), 2.0 / 15.0);
    var rot: Vec := Scale(LimitNorm(norm, action[3..6], 1.0), 2.0 / 15.0);
    assert r == lin + rot + [GripperVelocity(action[6])];
  }

  /** The gripper entry: normalised to magnitude 1 when larger, then scaled
      by 4/15. */
  function GripperVelocity(g: real): real
  {
    var grip := if Abs(g) > 1.0 then g / Abs(g) else g;
    grip * MaxGripperVel / Hz
  }

  lemma GripperBound(g: real)
    ensures var x := GripperVelocity(g);
      Abs(x) <= 4.0 / 15.0 && (Abs(g) <= 1.0 ==> x == g * 4.0 / 15.0) && (0.0 <= g <==> 0.0 <= x)
  {
  }

  /** One arm part: its norm is limited to 1, then scaled by 2/15. */
  lemma PartBound(norm: Vec -> real, v: Vec)
    requires IsNorm(norm)
    ensures var s := Scale(LimitNorm(norm, v, 1.0), 2.0 / 15.0);
      norm(s) <= 2.0 / 15.0
      && (exists c: real :: 0.0 < c && s == Scale(v, c))
      && (norm(v) <= 1.0 ==> s == Scale(v, 2.0 / 15.0))
  {
    LimitNormSpec(norm, v, 1.0);
    var l := LimitNorm(norm, v, 1.0);
    NormScale(norm, l, 2.0 / 15.0);
    var c := if norm(v) > 1.0 then 1.0 / norm(v) else 1.0;
    assert l == Scale(v, c);
    ScaleScale(v, c, 2.0 / 15.0);
  }

  // ---------------------------------------------------------------- observations

  /** The timestamps of one `get_state` call. */
  datatype ReadTimes = ReadTimes(readStart: int, readEnd: int)

  /** The camera part of an observation: per-modality data keyed by camera,
      and the camera timestamps. */
  datatype CameraRead = CameraRead(data: map<string, map<string, Vec>>, timestamps: map<string, int>)

  /** `obs_dict`: the robot state and its read times under 'robot_state',
      the merged camera data, and 'camera_extrinsics', each when present. */
  datatype Observation = Observation(
    robotState: Option<RobotState>,
    stateTimes: Option<ReadTimes>,
    cameras: Option<CameraRead>,
    extrinsics: Option<map<string, Vec>>)

  /** The id under which a hand camera's uncorrected calibration is kept. */
  function OffsetKey(camId: string): string
  {
    camId + "_gripper_offset"
  }

  /** No hand camera's offset key is itself a calibrated camera. */
  predicate NoOffsetClash(calibration: map<string, Vec>, handCameraId: string)
  {
    forall k :: k in calibration && Contains(k, handCameraId) ==> OffsetKey(k) !in calibration
  }

  /** The offset keys of the hand cameras among `ids`. */
  function OffsetKeys(ids: set<string>, handCameraId: string): set<string>
  {
    set k | k in ids && Contains(k, handCameraId) :: OffsetKey(k)
  }

  lemma OffsetKeyInjective(a: string, b: string)
    ensures OffsetKey(a) == OffsetKey(b) ==> a == b
  {
    if OffsetKey(a) == OffsetKey(b) {
      assert a == OffsetKey(a)[..|a|] == OffsetKey(b)[..|b|] == b;
    }
  }

  lemma OffsetKeysAdd(ids: set<string>, id: string, handCameraId: string)
    ensures OffsetKeys(ids + {id}, handCameraId)
         == OffsetKeys(ids, handCameraId) + (if Contains(id, handCameraId) then {OffsetKey(id)} else {})
  {
  }

  /** The loop invariant of `get_camera_extrinsics` once the ids in `done`
      have been visited. */
  ghost predicate AdjustedSoFar(ext: map<string, Vec>, done: set<string>, calibration: map<string, Vec>,
                                handCameraId: string, changePoseFrame: (Vec, Vec) -> Vec, pose: Vec)
  {
    done <= calibration.Keys
    && ext.Keys == calibration.Keys + OffsetKeys(done, handCameraId)
    && (NoOffsetClash(calibration, handCameraId) ==>
          (forall k :: k in done && Contains(k, handCameraId) ==>
             ext[k] == changePoseFrame(calibration[k], pose) && ext[OffsetKey(k)] == calibration[k])
          && (forall k :: k in calibration && !(k in done && Contains(k, handCameraId)) ==>
             ext[k] == calibration[k]))
  }

  /** Visiting one more calibrated id keeps the invariant. */
  lemma AdjustOneKeeps(ext: map<string, Vec>, done: set<string>, calibration: map<string, Vec>,
                       handCameraId: string, changePoseFrame: (Vec, Vec) -> Vec, pose: Vec, camId: string)
    requires AdjustedSoFar(ext, done, calibration, handCameraId, changePoseFrame, pose)
    requires camId in calibration && camId !in done
    ensures var next := if Contains(camId, handCameraId)
                        then ext[OffsetKey(camId) := ext[camId]][camId := changePoseFrame(ext[camId], pose)]
                        else ext;
      AdjustedSoFar(next, done + {camId}, calibration, handCameraId, changePoseFrame, pose)
  {
    OffsetKeysAdd(done, camId, handCameraId);
    if Contains(camId, handCameraId) && NoOffsetClash(calibration, handCameraId) {
      var next := ext[OffsetKey(camId) := ext[camId]][camId := changePoseFrame(ext[camId], pose)];
      forall k | k in done && Contains(k, handCameraId)
        ensures next[OffsetKey(k)] == ext[OffsetKey(k)]
      {
        OffsetKeyInjective(k, camId);
      }
    }
  }

  /** Once every calibrated id is visited, the invariant is the contract of
      `get_camera_extrinsics`. */
  lemma AdjustedAll(ext: map<string, Vec>, calibration: map<string, Vec>,
                    handCameraId: string, changePoseFrame: (Vec, Vec) -> Vec, pose: Vec)
    requires AdjustedSoFar(ext, calibration.Keys, calibration, handCameraId, changePoseFrame, pose)
    ensures ext.Keys == calibration.Keys + OffsetKeys(calibration.Keys, handCameraId)
    ensures NoOffsetClash(calibration, handCameraId) ==>
      (forall k :: k in calibration && Contains(k, handCameraId) ==>
         ext[k] == changePoseFrame(calibration[k], pose) && ext[OffsetKey(k)] == calibration[k])
      && (forall k :: k in calibration && !Contains(k, handCameraId) ==> ext[k] == calibration[k])
  {
  }

  /** The gripper pose `ee_state[:6]`. */
  function GripperPose(state: RobotState): (p: Vec)
    ensures |state.eeState| >= 6 ==> p == state.eeState[..6]
    ensures |state.eeState| < 6 ==> p == state.eeState
  {
    state.eeState[..if |state.eeState| < 6 then |state.eeState| else 6]
  }

  class RobotEnv<R> {
    const robot: FrankaRobot<R>
    const norm: Vec -> real
    const calibration: map<string, Vec>     // `load_calibration_info()`
    const calibrationOrder: seq<string>     // its keys in insertion order
    const handCameraId: string
    const changePoseFrame: (Vec, Vec) -> Vec

    ghost predicate Valid()
      reads this, robot
    {
      IsNorm(norm) && 0.0 < robot.maxGripperWidth
      && (forall i, j :: 0 <= i < j < |calibrationOrder| ==> calibrationOrder[i] != calibrationOrder[j])
      && calibration.Keys == set k | k in calibrationOrder
    }

    /** Construction ends with `reset()`: the gripper opens, then the arm
        moves to the reset joints, both blocking. */
    constructor (robot: FrankaRobot<R>, norm: Vec -> real, calibration: map<string, Vec>,
                 calibrationOrder: seq<string>, handCameraId: string, changePoseFrame: (Vec, Vec) -> Vec)
      modifies robot`commands
      requires IsNorm(norm) && 0.0 < robot.maxGripperWidth
      requires forall i, j :: 0 <= i < j < |calibrationOrder| ==> calibrationOrder[i] != calibrationOrder[j]
      requires calibration.Keys == set k | k in calibrationOrder
      ensures Valid()
      ensures this.robot == robot && this.norm == norm && this.calibration == calibration
      ensures this.calibrationOrder == calibrationOrder && this.handCameraId == handCameraId
      ensures this.changePoseFrame == changePoseFrame
      ensures robot.commands == old(robot.commands) + [GripperGoto(robot.maxGripperWidth, true),
                                                       JointTarget(ResetJoints(), true)]
    {
      this.robot := robot;
      this.norm := norm;
      this.calibration := calibration;
      this.calibrationOrder := calibrationOrder;
      this.handCameraId := handCameraId;
      this.changePoseFrame := changePoseFrame;
      new;
      Reset(None);
    }

    /** `step`: the action must have DoF + 1 entries, all in [-1, 1]; it is
        velocity-limited and sent to the robot as a cartesian delta. */
    method Step(action: Vec) returns (r: Result<ActionDict>)
      modifies robot`commands
      requires Valid()
      ensures Valid()
      ensures !(|action| == DoF + 1 && InRange(action, -1.0, 1.0)) ==>
        r == Err(AssertionError) && robot.commands == old(robot.commands)
      ensures |action| == DoF + 1 && InRange(action, -1.0, 1.0) ==>
        var limited := LimitVelocity(norm, action).value;
        r == CreateActionDict(robot.rot, limited, "cartesian", Flag(true), old(robot.GetRobotState()), robot.ik)
        && (r.Err? ==> robot.commands == old(robot.commands))
        && (r.Ok? ==>
              robot.commands == old(robot.commands) +
                [JointTarget(r.value.joint, false),
                 GripperGoto(GripperWidth(robot.maxGripperWidth, Clip(r.value.gripper, 0.0, 1.0)), false)])
    {
      if !(|action| == DoF + 1) {
        return Err(AssertionError);
      }
      if !InRange(action, -1.0, 1.0) {
        return Err(AssertionError);
      }
      var limited := LimitVelocity(norm, action);
      r := robot.UpdateCommand(limited.value, "cartesian", Flag(true), false);
    }

    /** `reset`: open the gripper (absolute 0, blocking), then move to
        `joints`, or to the reset joints when none are given. */
    method Reset(joints: Option<Vec>)
      modifies robot`commands
      requires 0.0 < robot.maxGripperWidth
      ensures robot.commands == old(robot.commands) + [GripperGoto(robot.maxGripperWidth, true),
                                                       JointTarget(joints.GetOr(ResetJoints()), true)]
    {
      var target := if joints.None? then ResetJoints() else joints.value;
      robot.UpdateGripper(0.0, false, true);
      var _ := robot.UpdateJoints(target, false, true);
    }

    /** `get_camera_extrinsics`: a copy of the calibration in which every
        camera whose id contains the hand camera id is moved into the frame
        of the gripper pose, its original value kept under the offset key. */
    method GetCameraExtrinsics(state: RobotState) returns (ext: map<string, Vec>)
      requires Valid()
      ensures ext.Keys == calibration.Keys + OffsetKeys(calibration.Keys, handCameraId)
      ensures NoOffsetClash(calibration, handCameraId) ==>
        (forall k :: k in calibration && Contains(k, handCameraId) ==>
           ext[k] == changePoseFrame(calibration[k], GripperPose(state))
           && ext[OffsetKey(k)] == calibration[k])
        && (forall k :: k in calibration && !Contains(k, handCameraId) ==> ext[k] == calibration[k])
    {
      var pose := GripperPose(state);
      ghost var done: set<string> := {};
      ext := calibration;
      var i := 0;
      while i < |calibrationOrder|
        invariant 0 <= i <= |calibrationOrder|
        invariant forall j :: 0 <= j < i ==> calibrationOrder[j] in done
        invariant forall j :: i <= j < |calibrationOrder| ==> calibrationOrder[j] !in done
        invariant AdjustedSoFar(ext, done, calibration, handCameraId, changePoseFrame, pose)
      {
        var camId := calibrationOrder[i];
        ghost var before := ext;
        if Contains(camId, handCameraId) {
          ext := ext[OffsetKey(camId) := ext[camId]];
          ext := ext[camId := changePoseFrame(ext[camId], pose)];
        }
        AdjustOneKeeps(before, done, calibration, handCameraId, changePoseFrame, pose, camId);
        done := done + {camId};
        i := i + 1;
      }
      assert done == calibration.Keys;
      AdjustedAll(ext, calibration, handCameraId, changePoseFrame, pose);
    }

    /** `get_observation` as written: `read_cameras` passes keyword arguments
        to a wrapper method that takes none, so requesting any camera
        modality raises `TypeError`; requesting extrinsics without the robot
        state fails its assertion. */
    method GetObservation(robotStateFlag: bool, cameraExtrinsics: bool, image: bool, depth: bool,
                          pointcloud: bool, times: ReadTimes) returns (r: Result<Observation>)
      requires Valid()
      ensures (image || depth || pointcloud) <==> r == Err(TypeError)
      ensures !(image || depth || pointcloud) && cameraExtrinsics && !robotStateFlag ==> r == Err(AssertionError)
      ensures r.Ok? ==> ObservationShape(r.value, robotStateFlag, cameraExtrinsics, false)
      ensures r.Ok? && robotStateFlag ==> r.value.robotState == Some(robot.GetRobotState())
    {
      var obs := Observation(None, None, None, None);
      if robotStateFlag {
        obs := obs.(robotState := Some(robot.GetRobotState()), stateTimes := Some(times));
      }
      if image || depth || pointcloud {
        return Err(TypeError);
      }
      if cameraExtrinsics {
        if !robotStateFlag {
          return Err(AssertionError);
        }
        var ext := GetCameraExtrinsics(obs.robotState.value);
        obs := obs.(extrinsics := Some(ext));
      }
      return Ok(obs);
    }

    /** `get_observation` as evidently intended, with the cameras read through
        `read_cameras` given as `cameraRead`: the cameras are read exactly
        when a modality is requested. */
    method GetObservationIntended(robotStateFlag: bool, cameraExtrinsics: bool, image: bool, depth: bool,
                                  pointcloud: bool, times: ReadTimes, cameraRead: CameraRead)
      returns (r: Result<Observation>)
      requires Valid()
      ensures r.Err? <==> cameraExtrinsics && !robotStateFlag
      ensures r.Err? ==> r.error == AssertionError
      ensures r.Ok? ==> ObservationShape(r.value, robotStateFlag, cameraExtrinsics, image || depth || pointcloud)
      ensures r.Ok? && (image || depth || pointcloud) ==> r.value.cameras == Some(cameraRead)
      ensures r.Ok? && robotStateFlag ==> r.value.robotState == Some(robot.GetRobotState())
    {
      var obs := Observation(None, None, None, None);
      if robotStateFlag {
        obs := obs.(robotState := Some(robot.GetRobotState()), stateTimes := Some(times));
      }
      if image || depth || pointcloud {
        obs := obs.(cameras := Some(cameraRead));
      }
      if cameraExtrinsics {
        if !robotStateFlag {
          return Err(AssertionError);
        }
        var ext := GetCameraExtrinsics(obs.robotState.value);
        obs := obs.(extrinsics := Some(ext));
      }
      return Ok(obs);
    }
  }

  /** Which parts of an observation are present. */
  predicate ObservationShape(o: Observation, robotState: bool, extrinsics: bool, cameras: bool)
  {
    (o.robotState.Some? <==> robotState) && (o.stateTimes.Some? <==> robotState)
    && (o.extrinsics.Some? <==> extrinsics) && (o.cameras.Some? <==> cameras)
  }
}
