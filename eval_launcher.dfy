/** The decision logic of droid/evaluation/eval_launcher_robomimic.py: the
    action and gripper spaces read off a checkpoint's action keys, the image
    size read off its observation shapes, and the stand-in environment and
    controller (`TempRobotEnv`, `TempVRPolicy`). Checkpoint loading, the
    policy network, the GUI and the robot server are not part of this
    model. */
module EvalLauncher {
  import opened Wrappers
  import opened Vectors
  import opened PyStrings
  import TimestepProcessing
  import RobotEnvironment
  import TrajectoryUtils

  // ---------------------------------------------------------------- action spaces

  /** Whether no key starts with `prefix`: the `assert` loop, which stops at
      the first offending key. */
  method NoKeyStartsWith(keys: seq<string>, prefix: string) returns (ok: bool)
    ensures ok <==> forall i :: 0 <= i < |keys| ==> !StartsWith(keys[i], prefix)
  {
    var i := 0;
    while i < |keys|
      invariant 0 <= i <= |keys|
      invariant forall j :: 0 <= j < i ==> !StartsWith(keys[j], prefix)
    {
      if StartsWith(keys[i], prefix) {
        return false;
      }
      i := i + 1;
    }
    return true;
  }

  /** The arm action space: relative positions mean velocity control and
      forbid absolute keys; absolute positions mean position control and
      forbid relative keys; neither is a `ValueError`. Every space it returns
      is one the timestep processor accepts. */
  method ClassifyActionSpace(actionKeys: seq<string>) returns (r: Result<string>)
    ensures "action/rel_pos" in actionKeys ==>
      (r.Ok? <==> forall i :: 0 <= i < |actionKeys| ==> !StartsWith(actionKeys[i], "action/abs_"))
      && (r.Ok? ==> r.value == "cartesian_velocity") && (r.Err? ==> r.error == AssertionError)
    ensures "action/rel_pos" !in actionKeys && "action/abs_pos" in actionKeys ==>
      (r.Ok? <==> forall i :: 0 <= i < |actionKeys| ==> !StartsWith(actionKeys[i], "action/rel_"))
      && (r.Ok? ==> r.value == "cartesian_position") && (r.Err? ==> r.error == AssertionError)
    ensures "action/rel_pos" !in actionKeys && "action/abs_pos" !in actionKeys ==> r == Err(ValueError)
    ensures r.Ok? ==> r.value in TimestepProcessing.ActionSpaces
  {
    if "action/rel_pos" in actionKeys {
      var ok := NoKeyStartsWith(actionKeys, "action/abs_");
      r := if ok then Ok("cartesian_velocity") else Err(AssertionError);
    } else if "action/abs_pos" in actionKeys {
      var ok := NoKeyStartsWith(actionKeys, "action/rel_");
      r := if ok then Ok("cartesian_position") else Err(AssertionError);
    } else {
      r := Err(ValueError);
    }
  }

  /** The gripper action space: velocity takes precedence over position. */
  function GripperActionSpace(actionKeys: seq<string>): (r: Result<string>)
    ensures r.Ok? <==> "action/gripper_velocity" in actionKeys || "action/gripper_position" in actionKeys
    ensures r.Ok? ==> (r.value == "velocity" <==> "action/gripper_velocity" in actionKeys)
    ensures r.Ok? ==> r.value in {"velocity", "position"}
    ensures r.Err? ==> r.error == ValueError
  {
    if "action/gripper_velocity" in actionKeys then Ok("velocity")
    else if "action/gripper_position" in actionKeys then Ok("position")
    else Err(ValueError)
  }

  // ---------------------------------------------------------------- image size

  /** The position of the first observation key naming a static image, in
      the dict's order. */
  function FirstStatic(shapes: seq<(string, seq<int>)>): (r: Option<nat>)
    ensures r.Some? ==> r.value < |shapes| && Contains(shapes[r.value].0, "static_image")
    ensures r.Some? ==> forall j :: 0 <= j < r.value ==> !Contains(shapes[j].0, "static_image")
    ensures r.None? ==> forall j :: 0 <= j < |shapes| ==> !Contains(shapes[j].0, "static_image")
  {
    if shapes == [] then None
    else if Contains(shapes[0].0, "static_image") then Some(0)
    else
      var rest := FirstStatic(shapes[1..]);
      if rest.None? then None else Some(rest.value + 1)
  }

  /** Python's `max` of a non-empty tuple. */
  function SeqMax(s: seq<int>): (m: int)
    requires |s| > 0
    ensures m in s && forall i :: 0 <= i < |s| ==> s[i] <= m
  {
    if |s| == 1 then s[0]
    else
      var rest := SeqMax(s[1..]);
      assert forall i :: 1 <= i < |s| ==> s[i] == s[1..][i - 1];
      if s[0] >= rest then s[0] else rest
  }

  /** The image-size loop: the largest dimension of the first static-image
      shape. `None` when no key matches, leaving the size unbound; an empty
      shape makes `max` raise `ValueError`. */
  method InferImageSize(shapes: seq<(string, seq<int>)>) returns (r: Result<Option<int>>)
    ensures FirstStatic(shapes).None? ==> r == Ok(None)
    ensures FirstStatic(shapes).Some? && |shapes[FirstStatic(shapes).value].1| == 0 ==> r == Err(ValueError)
    ensures FirstStatic(shapes).Some? && |shapes[FirstStatic(shapes).value].1| > 0 ==>
      r.Ok? && r.value.Some? &&
      (var shape := shapes[FirstStatic(shapes).value].1;
       r.value.value in shape && forall i :: 0 <= i < |shape| ==> shape[i] <= r.value.value)
  {
    var i := 0;
    while i < |shapes|
      invariant 0 <= i <= |shapes|
      invariant forall j :: 0 <= j < i ==> !Contains(shapes[j].0, "static_image")
    {
      if Contains(shapes[i].0, "static_image") {
        assert FirstStatic(shapes) == Some(i);
        if |shapes[i].1| == 0 {
          return Err(ValueError);
        }
        return Ok(Some(SeqMax(shapes[i].1)));
      }
      i := i + 1;
    }
    return Ok(None);
  }

  /** What `eval_launcher` derives from the checkpoint before it builds the
      environment. */
  datatype Setup = Setup(actionSpace: string, gripperActionSpace: string, imageSize: int)

  /** The checkpoint-derived settings, failing where `eval_launcher` does
      and in its order: the image-size loop, the arm and gripper spaces, and
      finally the camera settings, which read the image size and raise
      `NameError` (an `UnboundLocalError`) when it was never bound. */
  method DeriveSetup(shapes: seq<(string, seq<int>)>, actionKeys: seq<string>) returns (r: Result<Setup>)
    ensures r.Ok? ==> r.value.actionSpace in ["cartesian_velocity", "cartesian_position"]
    ensures r.Ok? ==> "action/rel_pos" in actionKeys || "action/abs_pos" in actionKeys
    ensures r.Ok? ==> (r.value.actionSpace == "cartesian_velocity" <==> "action/rel_pos" in actionKeys)
    ensures r.Ok? && r.value.actionSpace == "cartesian_velocity" ==>
      forall i :: 0 <= i < |actionKeys| ==> !StartsWith(actionKeys[i], "action/abs_")
    ensures r.Ok? && r.value.actionSpace == "cartesian_position" ==>
      forall i :: 0 <= i < |actionKeys| ==> !StartsWith(actionKeys[i], "action/rel_")
    ensures r.Ok? ==> GripperActionSpace(actionKeys) == Ok(r.value.gripperActionSpace)
    ensures r.Ok? ==> FirstStatic(shapes).Some?
    ensures r.Ok? ==> (var shape := shapes[FirstStatic(shapes).value].1;
                       r.value.imageSize in shape && forall i :: 0 <= i < |shape| ==> shape[i] <= r.value.imageSize)
    ensures FirstStatic(shapes).Some? && |shapes[FirstStatic(shapes).value].1| == 0 ==> r == Err(ValueError)
    ensures GripperActionSpace(actionKeys).Err? ==> r.Err?
  {
    var imageSize := InferImageSize(shapes);
    if imageSize.Err? {
      return Err(imageSize.error);
    }
    var actionSpace := ClassifyActionSpace(actionKeys);
    if actionSpace.Err? {
      return Err(actionSpace.error);
    }
    var gripperSpace := GripperActionSpace(actionKeys);
    if gripperSpace.Err? {
      return Err(gripperSpace.error);
    }
    if imageSize.value.None? {
      return Err(NameError);
    }
    return Ok(Setup(actionSpace.value, gripperSpace.value, imageSize.value.value));
  }

  // ---------------------------------------------------------------- stand-ins

  /** The frame change `TempRobotEnv` applies to a hand camera: none, the
      calibration is assigned to itself. */
  function KeepFrame(calibration: Vec, pose: Vec): Vec
  {
    calibration
  }

  /** The degrees of freedom of an action: 7 for cartesian spaces, 8 for
      joint spaces. */
  function TempDoF(actionSpace: string): (d: nat)
    ensures d == 7 <==> Contains(actionSpace, "cartesian")
    ensures d == 8 <==> !Contains(actionSpace, "cartesian")
  {
    if Contains(actionSpace, "cartesian") then 7 else 8
  }

  /** `TempRobotEnv`, a stand-in for the robot environment that checks
      actions and reports a fixed state. */
  class TempRobotEnv {
    const actionSpace: string
    const gripperActionSpace: Option<string>
    const checkActionRange: bool
    const dof: nat
    const controlHz: int
    const calibration: map<string, Vec>     // `load_calibration_info()`
    const calibrationOrder: seq<string>     // its keys in insertion order
    const handCameraId: string

    ghost predicate Valid()
      reads this
    {
      (forall i, j :: 0 <= i < j < |calibrationOrder| ==> calibrationOrder[i] != calibrationOrder[j])
      && calibration.Keys == set k | k in calibrationOrder
    }

    /** The constructor; its `assert` on the action space is the
        precondition, and `reset` does nothing. */
    constructor(actionSpace: string, gripperActionSpace: Option<string>, calibration: map<string, Vec>,
                calibrationOrder: seq<string>, handCameraId: string)
      requires actionSpace in TimestepProcessing.ActionSpaces
      requires forall i, j :: 0 <= i < j < |calibrationOrder| ==> calibrationOrder[i] != calibrationOrder[j]
      requires calibration.Keys == set k | k in calibrationOrder
      ensures Valid()
      ensures this.actionSpace == actionSpace && this.gripperActionSpace == gripperActionSpace
      ensures checkActionRange <==> Contains(actionSpace, "velocity")
      ensures dof == TempDoF(actionSpace) && controlHz == 5
      ensures this.calibration == calibration && this.calibrationOrder == calibrationOrder
      ensures this.handCameraId == handCameraId
    {
      this.actionSpace := actionSpace;
      this.gripperActionSpace := gripperActionSpace;
      checkActionRange := Contains(actionSpace, "velocity");
      dof := TempDoF(actionSpace);
      controlHz := 5;
      this.calibration := calibration;
      this.calibrationOrder := calibrationOrder;
      this.handCameraId := handCameraId;
    }

    /** `step`: the action must have `DoF` entries, and entries in [-1, 1]
        only when the range is checked; `update_robot` does nothing. */
    method Step(action: Vec) returns (r: Result<()>)
      ensures |action| != dof ==> r == Err(AssertionError)
      ensures |action| == dof && !checkActionRange ==> r == Ok(())
      ensures |action| == dof && checkActionRange ==>
        (r.Ok? <==> forall i :: 0 <= i < |action| ==> -1.0 <= action[i] <= 1.0)
        && (r.Err? ==> r.error == AssertionError)
    {
      if |action| != dof {
        return Err(AssertionError);
      }
      if checkActionRange && !InRange(action, -1.0, 1.0) {
        return Err(AssertionError);
      }
      return Ok(());
    }

    /** `get_camera_extrinsics`: a copy of the calibration in which each
        hand camera also appears under its offset key; the gripper pose it
        reads must be in the state. */
    method GetCameraExtrinsics(state: map<string, Vec>) returns (r: Result<map<string, Vec>>)
      requires Valid()
      ensures r.Err? <==> "cartesian_position" !in state
                          && exists k :: k in calibration && Contains(k, handCameraId)
      ensures r.Err? ==> r.error == KeyError
      ensures r.Ok? ==> r.value.Keys == calibration.Keys
                        + RobotEnvironment.OffsetKeys(calibration.Keys, handCameraId)
      ensures r.Ok? && RobotEnvironment.NoOffsetClash(calibration, handCameraId) ==>
        (forall k :: k in calibration ==> r.value[k] == calibration[k])
        && (forall k :: k in calibration && Contains(k, handCameraId) ==>
              r.value[RobotEnvironment.OffsetKey(k)] == calibration[k])
    {
      ghost var done: set<string> := {};
      var ext := calibration;
      var pose: Vec := [];
      var i := 0;
      while i < |calibrationOrder|
        invariant Progress(i, done, state)
        invariant RobotEnvironment.AdjustedSoFar(ext, done, calibration, handCameraId, KeepFrame, pose)
      {
        var camId := calibrationOrder[i];
        if Contains(camId, handCameraId) && "cartesian_position" !in state {
          assert camId in calibration;
          return Err(KeyError);
        }
        ext := AdjustOne(ext, done, i, state, pose);
        done := done + {camId};
        i := i + 1;
      }
      assert done == calibration.Keys;
      RobotEnvironment.AdjustedAll(ext, calibration, handCameraId, KeepFrame, pose);
      return Ok(ext);
    }

    /** The ids visited after `i` passes of the loop; without the gripper
        pose, none of them was a hand camera. */
    ghost predicate Progress(i: int, done: set<string>, state: map<string, Vec>)
      reads this
    {
      0 <= i <= |calibrationOrder|
      && (forall j :: 0 <= j < i ==> calibrationOrder[j] in done)
      && (forall j :: i <= j < |calibrationOrder| ==> calibrationOrder[j] !in done)
      && ("cartesian_position" !in state ==> forall k :: k in done ==> !Contains(k, handCameraId))
    }

    /** One pass of the `get_camera_extrinsics` loop: a hand camera's
        calibration is copied to its offset key and kept. */
    method AdjustOne(ext: map<string, Vec>, ghost done: set<string>, i: int, state: map<string, Vec>, pose: Vec)
      returns (ext': map<string, Vec>)
      requires Valid() && Progress(i, done, state) && i < |calibrationOrder|
      requires Contains(calibrationOrder[i], handCameraId) ==> "cartesian_position" in state
      requires RobotEnvironment.AdjustedSoFar(ext, done, calibration, handCameraId, KeepFrame, pose)
      ensures Progress(i + 1, done + {calibrationOrder[i]}, state)
      ensures RobotEnvironment.AdjustedSoFar(ext', done + {calibrationOrder[i]}, calibration, handCameraId, KeepFrame, pose)
    {
      var camId := calibrationOrder[i];
      ext' := ext;
      if Contains(camId, handCameraId) {
        ext' := ext'[RobotEnvironment.OffsetKey(camId) := ext'[camId]];
        ext' := ext'[camId := KeepFrame(ext'[camId], pose)];
      }
      RobotEnvironment.AdjustOneKeeps(ext, done, calibration, handCameraId, KeepFrame, pose, camId);
    }
  }

  /** `TempVRPolicy.get_info`: a fixed report. */
  function TempVRPolicyInfo(): (info: map<string, bool>)
    ensures info.Keys == {"success", "failure", "movement_enabled", "controller_on"}
    ensures !info["success"] && !info["failure"] && info["movement_enabled"] && info["controller_on"]
  {
    map["success" := false, "failure" := false, "movement_enabled" := true, "controller_on" := true]
  }

  /** Driven by the stand-in controller, `collect_trajectory` never skips a
      pass, and without a horizon its end-of-trajectory check raises
      `KeyError`: the report has no `save_episode`. */
  lemma TempVRPolicyInCollectLoop(numSteps: nat)
    ensures !TrajectoryUtils.Skipped(true, TempVRPolicyInfo())
    ensures TrajectoryUtils.EndTraj(None, numSteps, TempVRPolicyInfo()) == Err(KeyError)
  {
    assert "save_episode" !in TempVRPolicyInfo();
  }
}
