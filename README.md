# DROID / R2D2 robot data-collection core, in Dafny

This project models the decision logic of the DROID robot-learning
platform (the `r2d2/` package and its successor `droid/`). It covers:

- **Teleoperation.** The VR policy turns headset poses into velocity
  actions: the reorder matrix, the poller step, origin anchoring,
  velocity limiting and the gripper gain. The Xbox gamepad controller has a
  dead zone and a latched gripper toggle.
- **The robot side.** The gym environment checks and limits the action,
  then runs the reset sequence, the observation flags and the hand-camera
  extrinsics. The Franka interface turns an action into joint and gripper
  targets.
- **Pose algebra.** Differences and sums of poses run over an abstract
  rotation group (`Rotations.RotationModel`, whose group laws are a
  hypothesis of the lemmas that need them).
- **The collection loop.** `collect_trajectory` runs at a fixed rate. It
  skips steps while the controller is disengaged, ends on the horizon or on
  a button, and keeps the trajectory buffers the same length.
- **Evaluation and training glue.** This covers:
  - the frame-stacking observation history;
  - the robomimic policy wrapper's layout choice;
  - the flattening of one timestep into state, camera data and action;
  - the action-space classification from checkpoint keys;
  - the camera lookup tables.
- **Cameras.** The recorded ZED reader has a seek counter. The playback
  and live wrappers merge every camera's data. Both live ZED readers switch
  between calibration, trajectory and disabled modes. The RealSense reader
  has recording flags and a depth-to-byte mapping.
- **Storage.** `write_dict_to_hdf5` appends one row per leaf to a tree of
  groups and datasets, broadcasting each value to its dataset's row shape
  as h5py does. A write that raises keeps what it did before the error. The trajectory writer queues camera frames for
  video and the rest for HDF5. Closing the file attaches the videos.
- **Postprocessing.**
  - The indexing and processing stages keep a cache of indexed, processed
    and errored trajectories.
  - The driver script builds the alias table and chooses between a fresh
    and a stored cache.
  - It decides which stages run and prints the summary counts.
- **The data-collection GUI.** Name validation, task parsing, the camera
  grid's select/swap/enlarge clicks, the Enter-key robot reset, the
  decision after a trajectory and the timer text.

Python exceptions become `Err` values of `Wrappers.Result`, carrying the
exception class. Hardware, SDKs, the clock and random draws become inputs:
parameters of the operations, or sequences of readings. Each background
thread becomes one step method. Floats are `real`. The Euclidean norm is an
abstract function characterised by its square.

Some lines of the repository do not do what their authors evidently
meant, most of them calls that do not match their callee. Each is listed
under Findings with a member that models the line as it stands and proves
the discrepancy. Where such a line merely changes an outcome, the model
keeps the as-written behaviour in place. Where it stops a component
outright, the component's methods are the intended version. For example,
the trajectory writer's constructor and its first image of each video
raise `TypeError` as written.

## Model

| member | source | states |
|---|---|---|
| Transformations.QuatToRmat | r2d2/misc/transformations.py:23-24 | `quat_to_rmat` reads the unbound name `euler`, so every call raises `NameError` |
| Transformations.QuatAdd | r2d2/misc/transformations.py:44-46 | `quat_add` reads the unbound name `target`, so every call raises `NameError` |
| Transformations.PoseDiffShape | r2d2/misc/transformations.py:37-41 | `pose_diff` succeeds exactly when both poses have six entries or more (shorter slices make the rotation call fail with `ValueError`), gives six entries, and the first three are the position difference |
| Transformations.AddPosesShape | r2d2/misc/transformations.py:54-58 | `add_poses` succeeds exactly when both poses have six entries or more, gives six entries, and the first three are the position sum |
| Transformations.TranslationRoundTrip | r2d2/misc/transformations.py:37-58 | adding a pose difference back onto the source restores the target position, and the difference of a sum restores the delta position |
| Transformations.AngleRoundTrip | r2d2/misc/transformations.py:31-52 | in radians, adding `angle_diff(target, source)` back onto the source gives the target rotation, for any rotation group |
| Transformations.AngleRoundTripInverse | r2d2/misc/transformations.py:31-52 | in radians, the difference of `add_angles(delta, source)` and the source is the delta rotation |
| Transformations.CancelledAngleRoundTrips | r2d2/misc/transformations.py:31-52 | both radian round trips hold under the weaker hypothesis that composition with an inverse cancels and the Euler conversions invert each other |
| Transformations.QuatDiffSelf | r2d2/misc/transformations.py:27-29 | the `quat_diff` of a quaternion with itself is the identity rotation |
| Transformations.QuatDiffOfSelfDiffs | r2d2/misc/transformations.py:5-29 | the Euler angles between two null rotations are zero |
| Transformations.DegreeHandling | r2d2/misc/transformations.py:31-52 | with `degrees=True`, `angle_diff` reads degrees but answers in radians, while `add_angles` reads and answers in degrees |
| Transformations.FromAsEuler | r2d2/misc/transformations.py:5-17 | converting a rotation to Euler angles and back gives the same rotation, in either unit |
| Transformations.AngleDiffIntendedInRadians | r2d2/misc/transformations.py:31-35 | the corrected `angle_diff` (answering in the unit it is given) agrees with the original in radians |
| Transformations.AngleDiffIntendedRoundTrip | r2d2/misc/transformations.py:31-52 | with the corrected `angle_diff`, adding the difference back gives the target rotation in both units |
| Transformations.CancelledIntendedRoundTrip | r2d2/misc/transformations.py:31-52 | the corrected round trip also holds under the cancellation and invertibility hypotheses alone |
| Transformations.AngleDiffDegreesRoundTripFails | r2d2/misc/transformations.py:35 | as written, the degree-mode round trip misses: in the one-axis model target 1 and source 0 come back as 2 |
| Transformations.QuatAddIntendedRoundTrip | r2d2/misc/transformations.py:27-46 | with `delta` in place of `target`, adding a quaternion difference back restores the target rotation |
| Transformations.CancelledQuatRoundTrip | r2d2/misc/transformations.py:27-46 | the corrected quaternion round trip holds under the cancellation and invertibility hypotheses alone |
| Transformations.QuatAddRoundTripFails | r2d2/misc/transformations.py:44-46 | as written, `quat_add` cannot complete the round trip: it always fails |
| Transformations.QuatToRmatIntendedRoundTrip | r2d2/misc/transformations.py:19-24 | with `quat` in place of `euler`, converting a quaternion to a matrix and back gives the same rotation |
| Rotations.GroupCancels | r2d2/misc/transformations.py:28-34 | in a rotation group, composing with an inverse cancels |
| Rotations.AxisModel | r2d2/misc/transformations.py:31-35 | the rotations about one axis satisfy all the group and conversion laws the lemmas assume |
| OculusController.VecToReorderMat | r2d2/controllers/oculus_controller.py:7-12 | the loop fills an n-by-n matrix whose row i holds the sign of `vec[i]` in column abs(`vec[i]`)-1 and zeros elsewhere (a zero entry writes into the last column); it succeeds exactly when every magnitude is at most n, and fails with `IndexError` otherwise |
| Vectors.LimitNorm | r2d2/controllers/oculus_controller.py:95-100 | one part of `_limit_velocity`: the vector is rescaled only when its norm exceeds the bound, and keeps its length |
| Vectors.LimitNormSpec | r2d2/controllers/oculus_controller.py:92-100 | after limiting, the norm is at most the bound; a vector within the bound is unchanged; one beyond it ends with norm equal to the bound, as a multiple of itself by a factor strictly between 0 and 1 when the bound is positive |
| Vectors.NormScale | r2d2/controllers/oculus_controller.py:96 | the norm is absolutely homogeneous, which is why the rescaling lands on the bound |
| Vectors.SumSqScale | r2d2/controllers/oculus_controller.py:92 | scaling a vector by k scales its sum of squares by k squared |
| Vectors.ClipVecInRange | r2d2/controllers/oculus_controller.py:138 | `clip(-1, 1)` leaves every entry in range and changes nothing already in range |
| OculusController.LimitVelocity | r2d2/controllers/oculus_controller.py:90-101 | `_limit_velocity` keeps each part's length |
| OculusController.LimitVelocitySpec | r2d2/controllers/oculus_controller.py:90-101 | each part is changed only when its norm exceeds its bound, then ends with norm equal to that bound as a positive multiple of itself |
| OculusController.ActionShape | r2d2/controllers/oculus_controller.py:130-138 | the action has seven entries, all in [-1, 1] |
| OculusController.GripperComponent | r2d2/controllers/oculus_controller.py:133 | the gripper action before limiting is the trigger minus the robot's gripper, times the gain |
| OculusController.ZeroArmPartsStayZero | r2d2/controllers/oculus_controller.py:130-138 | a zero gained linear or rotational part stays zero through limiting and clipping |
| OculusController.ReanchoredPositionIsStill | r2d2/controllers/oculus_controller.py:113-122 | on the call that re-anchors both origins the positional action is exactly zero |
| OculusController.ReanchoredRotationIsStill | r2d2/controllers/oculus_controller.py:113-128 | under the rotation laws the rotational action of that call is zero too |
| OculusController.RotationOfSelfDiffsIsZero | r2d2/controllers/oculus_controller.py:124-132 | when both offsets are null rotations whose Euler difference is zero, the gained rotational action is zero |
| OculusController.VRPolicy.constructor | r2d2/controllers/oculus_controller.py:15-39 | the policy starts with the reorder matrix built from `rmat_reorder`, the identity as the VR-to-global frame, no origins, the reset state, and the controller id `r` or `l` |
| OculusController.VRPolicy.ResetState | r2d2/controllers/oculus_controller.py:44-48 | `reset_state` empties the poses, clears the buttons and movement flag, sets `controller_on` and both reset flags |
| OculusController.VRPolicy.PollOnce | r2d2/controllers/oculus_controller.py:50-80 | one poller iteration: an empty reading only refreshes `controller_on` from the 5-second timeout; a non-empty one stores the reading, re-anchors the origin when the grip is released, and re-captures the forward frame from the controller pose when due (failing with `KeyError` when the controller is absent) |
| OculusController.VRPolicy.TakeReading | r2d2/controllers/oculus_controller.py:61-80 | the non-empty half of a poll: the new state and the re-capture rule `(reset_orientation or RJ) and not RG` |
| OculusController.VRPolicy.ProcessReading | r2d2/controllers/oculus_controller.py:82-88 | `_process_reading` succeeds exactly when the controller's pose is present |
| OculusController.VRPolicy.CalculateAction | r2d2/controllers/oculus_controller.py:103-138 | `_calculate_action`: `KeyError` without the controller pose, `ValueError` or `IndexError` for a short `ee_state`; otherwise the origins are re-anchored when due and the result is the limited, clipped action of seven entries in [-1, 1] |
| OculusController.VRPolicy.GetInfo | r2d2/controllers/oculus_controller.py:140-145 | `get_info` reports the A and B buttons, the movement flag and `controller_on` under their four keys |
| OculusController.VRPolicy.Forward | r2d2/controllers/oculus_controller.py:147-150 | `forward` gives seven zeros and changes nothing until a pose has arrived; after that it is `_calculate_action`: the same errors, the origins re-anchored when due, and the same limited, clipped action of seven entries in [-1, 1] |
| Franka.BroadcastAdd | r2d2/franka/robot.py:38-44 | adding two NumPy vectors succeeds exactly when their lengths agree or one has length 1 (else `ValueError`), and is then componentwise with the length-1 operand repeated |
| Franka.BroadcastSub | r2d2/franka/robot.py:47 | subtracting two NumPy vectors succeeds under the same length rule and is then componentwise |
| Franka.SubThenAdd | r2d2/franka/robot.py:38-47 | a joint delta computed as target minus positions, added back to the positions, restores the target |
| Franka.CreateActionDictValidation | r2d2/franka/robot.py:15-17 | `create_action_dict` raises `AssertionError` exactly when the action space is neither cartesian nor joint or `delta` is not a boolean |
| Franka.GripperFields | r2d2/franka/robot.py:20-27 | delta mode: `gripper_delta` is the last action entry and `gripper` is the current gripper plus it, clipped to [0, 1]; absolute mode: `gripper` is the last entry unclipped and `gripper_delta` is the difference clipped to [0, 1] |
| Franka.ActionDictKeys | r2d2/franka/robot.py:18-47 | the cartesian keys are present exactly for the cartesian action space, and in joint space the joint fields come from the action without its last entry |
| Franka.JointIsDeltaPlusPositions | r2d2/franka/robot.py:37-47 | in every mode and action space the joint target equals the joint delta plus the current joint positions |
| Franka.CartesianIsDeltaPlusPose | r2d2/franka/robot.py:29-35 | in both cartesian modes the target position is the delta position plus the current position, and under the rotation laws the target rotation is the delta rotation applied to the current one |
| Franka.AbsolutePoseRoundTrip | r2d2/franka/robot.py:32-35 | under the rotation laws, adding back the difference between an absolute pose and the current pose restores the absolute position and rotation |
| Franka.PoseSumOfDiff | r2d2/franka/robot.py:32-35 | without any rotation law, the pose sum of a pose difference has the target position and the rotation `add_angles(angle_diff(t, s), s)` |
| Franka.GripperWidth | r2d2/franka/robot.py:120 | the commanded width `max_width * (1 - close)` lies in [0, max_width] for a closing fraction in [0, 1] |
| Franka.GripperStateInvertsWidth | r2d2/franka/robot.py:120-133 | `get_gripper_state` inverts the width formula in both directions |
| Franka.FrankaRobot.constructor | r2d2/franka/robot.py:62-66 | the robot starts with the given gripper width bound, IK solver, kinematics and joint readings, and no commands |
| Franka.FrankaRobot.GetGripperState | r2d2/franka/robot.py:132-133 | the gripper state lies in [0, 1] for a width in [0, max width], and the width formula maps it back to the measured width |
| Franka.FrankaRobot.GetRobotState | r2d2/franka/robot.py:140-148 | the end-effector state has seven entries ending in the gripper state, with the joint positions and velocities as read |
| Franka.FrankaRobot.UpdateJoints | r2d2/franka/robot.py:96-114 | an absolute target is sent as given; a delta target is added in place to the current joint positions first, keeping the delta's length, and a length torch cannot add in place is a `RuntimeError` that sends nothing |
| Franka.InPlaceAdd | r2d2/franka/robot.py:97-98 | torch `a += b` succeeds exactly when `b` has `a`'s length or length 1, keeps `a`'s length and adds componentwise or repeats `b`; otherwise `RuntimeError` |
| Franka.InPlaceAddIsNarrowerBroadcast | r2d2/franka/robot.py:97-98 | where the in-place sum exists it equals NumPy's broadcast sum; a single delta against several joint positions is accepted by NumPy and refused in place |
| Franka.FrankaRobot.UpdateGripper | r2d2/franka/robot.py:116-124 | the closing fraction is made absolute in delta mode and clipped to [0, 1], and the command is the matching width, which lies in [0, max width] |
| Franka.FrankaRobot.UpdateCommand | r2d2/franka/robot.py:72-77 | the result is the action dictionary for the robot state before the call, and on success exactly an absolute joint target and an absolute gripper target are sent |
| RobotEnvironment.ResetJoints | r2d2/robot_env.py:28 | the reset joint configuration has DoF + 1 = 7 entries |
| RobotEnvironment.LimitVelocity | r2d2/robot_env.py:54-70 | `_limit_velocity` succeeds exactly on actions of seven entries or more (a shorter one fails at `action[6]` with `IndexError`) and gives seven entries |
| RobotEnvironment.LimitVelocityLayout | r2d2/robot_env.py:56-70 | the limited action is the linear part, the angular part and the gripper entry, in that order, each norm-limited to 1 and then scaled by its maximum velocity over 15 Hz |
| RobotEnvironment.LimitVelocityBounds | r2d2/robot_env.py:21-70 | the linear and angular parts have norm at most 2/15 and the gripper entry magnitude at most 4/15; each part keeps its direction, and is exactly the input times max/hz when its norm is at most 1 |
| RobotEnvironment.GripperBound | r2d2/robot_env.py:60-68 | the gripper entry is limited to magnitude 1 and scaled by 4/15, keeping its sign |
| RobotEnvironment.PartBound | r2d2/robot_env.py:58-67 | one arm part, limited to norm 1 and scaled by 2/15, has norm at most 2/15 and is a positive multiple of its input |
| RobotEnvironment.OffsetKeyInjective | r2d2/robot_env.py:96 | distinct camera ids have distinct `_gripper_offset` keys |
| RobotEnvironment.OffsetKeysAdd | r2d2/robot_env.py:93-96 | visiting one more id adds its offset key exactly when the id contains the hand camera id |
| RobotEnvironment.AdjustOneKeeps | r2d2/robot_env.py:93-97 | one iteration of the extrinsics loop keeps the loop invariant: visited hand-camera ids are moved into the gripper frame with their original value under the offset key, everything else is the calibration |
| RobotEnvironment.AdjustedAll | r2d2/robot_env.py:92-98 | once every calibrated id is visited, the keys are the calibration ids plus the offset keys of the hand-camera ids, with the values `get_camera_extrinsics` promises |
| RobotEnvironment.GripperPose | r2d2/robot_env.py:95 | the gripper pose is the first six entries of the end-effector state, or all of it when shorter |
| RobotEnvironment.RobotEnv.constructor | r2d2/robot_env.py:15-40 | construction ends with `reset()`: the gripper opens, then the arm moves to the reset joints, both blocking |
| RobotEnvironment.RobotEnv.Step | r2d2/robot_env.py:42-79 | an action that does not have exactly seven entries, all in [-1, 1], is an `AssertionError` that sends nothing; otherwise the velocity-limited action is sent as a cartesian delta through `update_command` |
| RobotEnvironment.RobotEnv.Reset | r2d2/robot_env.py:72-75 | `reset` opens the gripper (absolute 0, blocking) and then moves to the given joints, or to the reset joints when none are given |
| RobotEnvironment.RobotEnv.GetCameraExtrinsics | r2d2/robot_env.py:90-98 | only ids containing the hand camera id change, each moved into the gripper frame and gaining an `_gripper_offset` entry that holds the original value; every other entry equals the calibration |
| RobotEnvironment.RobotEnv.GetObservation | r2d2/robot_env.py:81-118 | as written: requesting any camera modality raises `TypeError` (line 82 passes keyword arguments to a `read_cameras` that takes none); requesting extrinsics without the robot state is an `AssertionError` |
| RobotEnvironment.RobotEnv.GetObservationIntended | r2d2/robot_env.py:100-118 | as intended: the cameras are read exactly when image, depth or pointcloud is requested, the robot state is present exactly when requested, and the only failure is extrinsics without the robot state |
| TrajectoryUtils.SleepFor | r2d2/misc/trajectory_utils.py:47-50 | the sleep is never negative, and it is positive exactly when 1/hz minus the time since the step started is, and then equals it |
| TrajectoryUtils.EndTraj | r2d2/misc/trajectory_utils.py:68-69 | with a horizon the loop ends exactly when the step count equals it; without one it ends when the controller asks to save or delete, and a missing key is a `KeyError` |
| TrajectoryUtils.UpdatedPointerStep | r2d2/misc/trajectory_utils.py:39 | one more pass merges its observation into the pointer |
| TrajectoryUtils.RecordedSkip | r2d2/misc/trajectory_utils.py:52-54 | a skipped pass (waiting for the controller while movement is disabled) records nothing but its sleep |
| TrajectoryUtils.RecordedTake | r2d2/misc/trajectory_utils.py:56-65 | a recorded pass appends its observation, the reply of `env.step`, its info and the action, keeping the three buffers the same length |
| TrajectoryUtils.StopsOnlyAtEndStep | r2d2/misc/trajectory_utils.py:69-70 | without a horizon, only the last recorded pass asks to stop |
| TrajectoryUtils.LoopFail | r2d2/misc/trajectory_utils.py:53 | waiting for a controller whose info lacks `movement_enabled` fails after updating the pointer |
| TrajectoryUtils.LoopSkip | r2d2/misc/trajectory_utils.py:52-54 | a skipped pass keeps the loop invariant with only its sleep and pointer update added |
| TrajectoryUtils.LoopTake | r2d2/misc/trajectory_utils.py:56-70 | a recorded pass keeps the loop invariant and ends the loop exactly when the termination check says so |
| TrajectoryUtils.Pass | r2d2/misc/trajectory_utils.py:32-70 | one pass of the loop body keeps the loop invariant |
| TrajectoryUtils.CollectLoop | r2d2/misc/trajectory_utils.py:30-72 | a failure of the loop is a `KeyError` from the controller info; the loop records exactly the passes that are not skipped, in order, with equal-length buffers; the pointer has absorbed every observation; with a horizon it returns exactly when the step count reaches it, and without one exactly at the first recorded pass that asks to stop |
| TrajectoryUtils.CollectTrajectory | r2d2/misc/trajectory_utils.py:7-72 | the argument checks fail (`AssertionError`, nothing reset) exactly when there is neither controller nor policy, neither controller nor horizon, a wait without a controller, or a non-dict pointer; otherwise the controller (if any) and then the env are reset, and the loop behaves as `CollectLoop` states; with valid arguments and a nonzero rate, any failure is that `KeyError` |
| XboxControl.GripperStep | r2d2/controllers/xbox_controller.py:64-70 | a press while armed flips the gripper and disarms the latch, a press while disarmed changes nothing, and a release re-arms |
| XboxControl.GripperRunAppend | r2d2/controllers/xbox_controller.py:64-70 | running the latch over two stretches of readings is running it over their concatenation |
| XboxControl.Held | r2d2/controllers/xbox_controller.py:64-70 | a held button is `n` pressed readings |
| XboxControl.HoldingChangesNothing | r2d2/controllers/xbox_controller.py:65-67 | holding the button down never flips a disarmed latch |
| XboxControl.PressHoldReleaseTogglesOnce | r2d2/controllers/xbox_controller.py:64-70 | a press, any hold and a release flip the gripper exactly once and re-arm the latch |
| XboxControl.SliceTo | r2d2/controllers/xbox_controller.py:42 | `a[:n]` keeps the first `n` entries, counting from the end for negative `n` |
| XboxControl.DeadZone | r2d2/controllers/xbox_controller.py:21-43 | entries below 0.1 in magnitude become 0 and all others pass through unchanged |
| XboxControl.RawPose | r2d2/controllers/xbox_controller.py:32-42 | the raw pose has six entries, z is (axis 5 - axis 2) / 2, and roll is button 4 minus button 5, so in {-1, 0, 1} |
| XboxControl.GripperAction | r2d2/controllers/xbox_controller.py:47 | the gripper entry is 1 exactly when closed and -1 exactly when open |
| XboxControl.XboxController.constructor | r2d2/controllers/xbox_controller.py:15-26 | the gripper starts open with the latch armed |
| XboxControl.XboxController.UpdateGripperState | r2d2/controllers/xbox_controller.py:64-70 | the latch takes one `GripperStep` |
| XboxControl.XboxController.GetAction | r2d2/controllers/xbox_controller.py:28-50 | button 0 steps the latch; the action is the dead-zoned pose truncated to DoF entries followed by the gripper entry, DoF + 1 entries in all, ending in 1 when closed and -1 when open |
| XboxControl.XboxController.GetInfo | r2d2/controllers/xbox_controller.py:52-62 | the info reports the reset, save and delete buttons; the reset button opens the gripper and re-arms the latch, and otherwise nothing changes |
| PolicyWrapper.Window | droid/evaluation/policy_wrapper.py:151-178 | a bounded deque keeps the last `maxlen` items of what was appended |
| PolicyWrapper.Append | droid/evaluation/policy_wrapper.py:178 | appending puts the item last, drops the oldest on overflow, and keeps a full deque full |
| PolicyWrapper.WindowAppend | droid/evaluation/policy_wrapper.py:178 | appending to a window of a stream is the window of the longer stream |
| PolicyWrapper.Repeat | droid/evaluation/policy_wrapper.py:152 | the seed is `num_frames` copies of the first value |
| PolicyWrapper.WindowOfCopies | droid/evaluation/policy_wrapper.py:152-178 | appending the first value to its own copies leaves the copies |
| PolicyWrapper.StreamWindowAppend | droid/evaluation/policy_wrapper.py:178 | one more arrival moves the reference window of the padded stream by one |
| PolicyWrapper.AppendKeys | droid/evaluation/policy_wrapper.py:176-178 | the loop of `add_obs` appends exactly to the keys visited so far and leaves the others |
| PolicyWrapper.InitialHistory | droid/evaluation/policy_wrapper.py:149-154 | the initial history has exactly the first observation's keys, each with `num_frames` copies of its value |
| PolicyWrapper.FirstMissing | droid/evaluation/policy_wrapper.py:176-178 | the first key of the observation that the history lacks, where `add_obs` fails |
| PolicyWrapper.FrameStackWrapper.constructor | droid/evaluation/policy_wrapper.py:126-138 | a new wrapper has no history |
| PolicyWrapper.FrameStackWrapper.Reset | droid/evaluation/policy_wrapper.py:156-157 | `reset` clears the history |
| PolicyWrapper.FrameStackWrapper.SetInitialObsHistory | droid/evaluation/policy_wrapper.py:140-154 | every key of the observation is seeded with `num_frames` copies; a negative `num_frames` is a `ValueError` as soon as there is a key |
| PolicyWrapper.FrameStackWrapper.AddObs | droid/evaluation/policy_wrapper.py:171-178 | the first call seeds the history from the observation and then appends each value; later calls append each value, and a key the history lacks is a `KeyError`; every key then holds exactly `num_frames` frames |
| PolicyWrapper.FrameStackWrapper.AppendEach | droid/evaluation/policy_wrapper.py:176-178 | the keys before the first missing one are appended, and the call succeeds exactly when every key is in the history |
| PolicyWrapper.FrameStackWrapper.GetObsHistory | droid/evaluation/policy_wrapper.py:159-169 | without a history it is a `TypeError`; with zero frames a `ValueError`; otherwise every key gives its single frame when `num_frames == 1` and all frames oldest first otherwise |
| PolicyWrapper.KeysBeforeAll | droid/evaluation/policy_wrapper.py:176 | iterating over all keys of a dict visits exactly its key set |
| PolicyWrapper.AppendKeysStep | droid/evaluation/policy_wrapper.py:176-178 | one more pass of the `add_obs` loop appends to exactly one more key |
| PolicyWrapper.AppendKeysValid | droid/evaluation/policy_wrapper.py:151-178 | appending keeps every deque at exactly `num_frames` frames |
| PolicyWrapper.FirstMissingIs | droid/evaluation/policy_wrapper.py:176-178 | the first missing key is characterised by its position |
| PolicyWrapper.FirstAddGivesCopies | droid/evaluation/policy_wrapper.py:172-178 | right after the first `add_obs`, every frame of every key equals the first observation's value |
| PolicyWrapper.HistoryIsStreamWindow | droid/evaluation/policy_wrapper.py:152-178 | after the first observation and any later ones, each key holds the last `num_frames` of the padded stream, oldest first and newest last |
| PolicyWrapper.RunAppendsSnoc | droid/evaluation/policy_wrapper.py:178 | appending a sequence then one more item is appending the longer sequence |
| PolicyWrapper.SelectObs | droid/evaluation/policy_wrapper.py:90-102 | the state/image layout when `robot_state` has 'state', else the cartesian/gripper/static_image layout when it has 'cartesian_position' (a missing 'gripper_position' is a `KeyError`), else `ValueError` |
| PolicyWrapper.ObsKeysOrder | droid/evaluation/policy_wrapper.py:90-106 | the chosen layout's keys, in the order the dict literal lists them |
| PolicyWrapper.PolicyWrapperRobomimic.constructor | droid/evaluation/policy_wrapper.py:67-80 | the wrapper starts with an empty frame stack of `frame_stack` frames and one episode started |
| PolicyWrapper.PolicyWrapperRobomimic.Forward | droid/evaluation/policy_wrapper.py:82-113 | a static image whose rank is not 3 is an `AssertionError`; a missing layout is the layout's error; both leave the frame stack alone. Otherwise the frame stack ends as `add_obs` leaves it: seeded and appended on the first call, appended key by key later, a key the history lacks being a `KeyError` and a negative `num_frames` a `ValueError`. After a successful `add_obs` the result is the policy on the stacked history with the task label, or the history's own error |
| PolicyWrapper.PolicyWrapperRobomimic.Reset | droid/evaluation/policy_wrapper.py:115-117 | `reset` clears the frame history and starts a new episode |
| TimestepProcessing.Flatten | r2d2/training/processing/timestep_processing.py:49 | flattening a number gives the one-entry vector and an array gives its entries |
| TimestepProcessing.GripperKey | r2d2/training/processing/timestep_processing.py:26 | `gripper_key` is 'gripper_velocity' exactly when 'velocity' occurs in the action space, and 'gripper_position' exactly when it does not |
| TimestepProcessing.CameraTypeNames | r2d2/training/processing/timestep_processing.py:42-43 | every camera id is mapped to its type's name; an unregistered type is a `KeyError` |
| TimestepProcessing.RobotStateVec | r2d2/training/processing/timestep_processing.py:47-51 | the robot state is the flattened values of the keys in order, and a missing key is a `KeyError` |
| TimestepProcessing.SortedHeadIsLeast | r2d2/training/processing/timestep_processing.py:47 | the first of a sorted key list is the least key |
| TimestepProcessing.SortedSameHead | r2d2/training/processing/timestep_processing.py:47 | sorted lists with the same keys start with the same key |
| TimestepProcessing.SameTail | r2d2/training/processing/timestep_processing.py:47 | removing the same first key leaves lists with the same keys |
| TimestepProcessing.SortedUnique | r2d2/training/processing/timestep_processing.py:47 | two sorted lists of the same keys are equal |
| TimestepProcessing.RobotStateOrderFree | r2d2/training/processing/timestep_processing.py:47-51 | the robot state depends only on which robot-state keys are configured, not on their order |
| TimestepProcessing.Tag | r2d2/training/processing/timestep_processing.py:65-86 | each collected value is filed under its camera type |
| TimestepProcessing.GroupFromAppend | r2d2/training/processing/timestep_processing.py:56-65 | appending to the per-type lists in two stretches is appending the whole sequence |
| TimestepProcessing.GroupIsValues | r2d2/training/processing/timestep_processing.py:56-65 | the grouped dict has a key exactly for the types that received a value, holding that type's values in arrival order |
| TimestepProcessing.ValuesOfTag | r2d2/training/processing/timestep_processing.py:65 | values filed under one type are found under that type only |
| TimestepProcessing.ValuesAppend | r2d2/training/processing/timestep_processing.py:65 | the values of a type over two stretches are the values of each, in order |
| TimestepProcessing.ValuesOfEvents | r2d2/training/processing/timestep_processing.py:58-65 | the values of one camera type are the matching ids' values of that type's serials, serial by serial in sorted order |
| TimestepProcessing.GroupedByType | r2d2/training/processing/timestep_processing.py:56-69 | each camera type is present exactly when it collected something, and holds, by sorted serial then sorted id, the values whose id contains the serial; types the filter rejects contribute nothing |
| TimestepProcessing.AppendMatches | r2d2/training/processing/timestep_processing.py:62-86 | the inner loop appends, in id order, the value of every id that contains the serial |
| TimestepProcessing.GroupMatches | r2d2/training/processing/timestep_processing.py:58-86 | the outer loop over sorted serials builds the grouping that `GroupedByType` describes, skipping types outside the filter |
| TimestepProcessing.Concat | r2d2/training/processing/timestep_processing.py:51-71 | concatenating one vector gives that vector |
| TimestepProcessing.HighDimSnoc | r2d2/training/processing/timestep_processing.py:76-86 | each obs type adds its group, and a type with no data adds no key |
| TimestepProcessing.GroupObsType | r2d2/training/processing/timestep_processing.py:77-86 | the nested loops for one obs type give its grouping by camera type, with a missing obs type treated as empty |
| TimestepProcessing.CollectHighDim | r2d2/training/processing/timestep_processing.py:74-86 | the loop over image, depth and pointcloud gives the high-dimensional dict |
| TimestepProcessing.JoinAction | r2d2/training/processing/timestep_processing.py:97 | the action is the arm action followed by the one gripper value; a non-array arm action or a non-scalar gripper value is a `ValueError` |
| TimestepProcessing.TimestepProcesser.constructor | r2d2/training/processing/timestep_processing.py:10-35 | only the four action spaces are accepted, and the gripper key follows the action space |
| TimestepProcessing.TimestepProcesser.Forward | r2d2/training/processing/timestep_processing.py:37-100 | the low-level state is the sorted-key robot state followed by the extrinsics grouped by sorted camera type, then sorted serial, then sorted calibration id; the camera data is the transformed high-dimensional dict; the action is absent when ignored and otherwise the arm action plus the gripper value; missing keys give `KeyError`; the caller's timestep is a value and is not changed |
| EvalLauncher.NoKeyStartsWith | droid/evaluation/eval_launcher_robomimic.py:321-326 | the assertion loop passes exactly when no action key starts with the prefix |
| EvalLauncher.ClassifyActionSpace | droid/evaluation/eval_launcher_robomimic.py:317-328 | 'action/rel_pos' gives cartesian_velocity and no key may start with 'action/abs_'; else 'action/abs_pos' gives cartesian_position and no key may start with 'action/rel_'; a violation is an `AssertionError`; neither key is a `ValueError` |
| EvalLauncher.GripperActionSpace | droid/evaluation/eval_launcher_robomimic.py:330-336 | the gripper space is velocity when 'action/gripper_velocity' is a key, else position when 'action/gripper_position' is, else `ValueError` |
| EvalLauncher.FirstStatic | droid/evaluation/eval_launcher_robomimic.py:307-310 | the first shape key, in dict order, that contains 'static_image' |
| EvalLauncher.SeqMax | droid/evaluation/eval_launcher_robomimic.py:309 | `max` of a non-empty shape is one of its entries and at least every entry |
| EvalLauncher.InferImageSize | droid/evaluation/eval_launcher_robomimic.py:306-310 | the image size is the largest dimension of the first static-image shape; no such key leaves it unbound, and an empty shape is a `ValueError` |
| EvalLauncher.DeriveSetup | droid/evaluation/eval_launcher_robomimic.py:306-376 | a successful setup has velocity control exactly when a relative position key is present (then no absolute keys), position control otherwise (then an absolute position key and no relative keys), the gripper space of the keys and the image size of the first static-image shape; the image-size, arm-space and gripper-space failures propagate in that order, and an unbound image size fails at the camera settings |
| EvalLauncher.TempDoF | droid/evaluation/eval_launcher_robomimic.py:167 | DoF is 7 exactly when 'cartesian' occurs in the action space and 8 otherwise |
| EvalLauncher.TempRobotEnv.constructor | droid/evaluation/eval_launcher_robomimic.py:153-187 | only the four action spaces are accepted; the range check is on exactly for velocity spaces and DoF follows `TempDoF` |
| EvalLauncher.TempRobotEnv.Step | droid/evaluation/eval_launcher_robomimic.py:189-203 | an action whose length is not DoF is an `AssertionError`; the range [-1, 1] is enforced only when range checking is on |
| EvalLauncher.TempRobotEnv.GetCameraExtrinsics | droid/evaluation/eval_launcher_robomimic.py:245-254 | every calibration value is unchanged and each hand-camera id gains an `_gripper_offset` copy; the state must hold 'cartesian_position' when there is a hand camera, else `KeyError` |
| EvalLauncher.TempRobotEnv.AdjustOne | droid/evaluation/eval_launcher_robomimic.py:248-253 | one pass of the loop copies a hand camera's calibration to its offset key and keeps the loop invariant |
| EvalLauncher.TempVRPolicyInfo | droid/evaluation/eval_launcher_robomimic.py:77-83 | the stand-in controller always reports no success, no failure, movement enabled and controller on |
| EvalLauncher.TempVRPolicyInCollectLoop | droid/evaluation/eval_launcher_robomimic.py:77-83 | driven by the stand-in controller, `collect_trajectory` never skips a pass, and without a horizon its termination check raises `KeyError` |
| CameraInfo.RegisteredTypesHaveNames | droid/camera_utils/info.py:3-11 | every type number in `camera_type_dict` is a key of `camera_type_to_string_dict`, so registered lookups never fail |
| CameraInfo.GetCameraName | droid/camera_utils/info.py:13-22 | the hand and static camera ids get their display names, and any other id is returned as it is |
| CameraInfo.GetCameraType | droid/camera_utils/info.py:25-30 | the hand camera id maps to "hand_camera" and the static camera id to "static_camera", and the result is None exactly for ids not in `camera_type_dict` |
| CameraInfo.TablesNameEveryCamera | droid/camera_utils/info.py:3-11 | the timestep processor's camera-type naming succeeds on these tables and names both cameras |
| RecordedZed.Configure | r2d2/camera_utils/readers/recorded_zed_camera.py:30-52 | the parameters are saved; a configuration reading nothing (skip) opens nothing, any other opens the file from its start; `_index` is never reset |
| RecordedZed.DataDict | r2d2/camera_utils/readers/recorded_zed_camera.py:86-112 | as written: the side-by-side image branch reads the unbound `svo_image` and raises `NameError`; otherwise the dict has exactly the requested modalities |
| RecordedZed.DataDictIntended | r2d2/camera_utils/readers/recorded_zed_camera.py:86-112 | as intended: exactly the requested modalities; a concatenated image under the serial alone, otherwise the images, depths and pointclouds under serial + '_left' and serial + '_right' |
| RecordedZed.Modalities | r2d2/camera_utils/readers/recorded_zed_camera.py:99-110 | depth and pointcloud appear exactly when requested, under serial + '_left' and serial + '_right' |
| RecordedZed.ReadStep | r2d2/camera_utils/readers/recorded_zed_camera.py:68-112 | an unconfigured reader raises; a skipping one returns {} and changes nothing; every other read advances `_index` by exactly 1 before grabbing, a failed grab or a discarded read returns None, and a successful grab moves the playback on by one frame |
| RecordedZed.TimestampMismatchIsNone | r2d2/camera_utils/readers/recorded_zed_camera.py:79-84 | a given timestamp that differs from the frame's receive time yields None; a matching one yields the frame's data |
| RecordedZed.SeekSteps | r2d2/camera_utils/readers/recorded_zed_camera.py:65-66 | `n` discarded reads advance `_index` by `n` and change neither parameters nor camera |
| RecordedZed.SetFrameIndexSpec | r2d2/camera_utils/readers/recorded_zed_camera.py:58-66 | unconfigured is an `AttributeError`; while skipping nothing changes; otherwise `_index` ends equal to the target, a backward seek repositioning directly and a forward one reading and discarding frames |
| RecordedZed.SeekPosition | r2d2/camera_utils/readers/recorded_zed_camera.py:65-75 | reading forward in an open file moves the playback by one frame per read until the end of the file |
| RecordedZed.ForwardSeekKeepsPositionInStep | r2d2/camera_utils/readers/recorded_zed_camera.py:58-66 | a forward seek in an open file that has the target frame leaves the playback on the target, in step with `_index` |
| RecordedZed.Disabled | r2d2/camera_utils/readers/recorded_zed_camera.py:114-116 | disabling closes an opened camera and changes nothing else |
| RecordedZed.DisabledReadsNothing | r2d2/camera_utils/readers/recorded_zed_camera.py:74-116 | a disabled reader that still reads gets None |
| RecordedZed.RecordedZedCamera.constructor | r2d2/camera_utils/readers/recorded_zed_camera.py:15-28 | a new reader has no parameters, `_index` 0 and no camera |
| RecordedZed.RecordedZedCamera.SetReadingParameters | r2d2/camera_utils/readers/recorded_zed_camera.py:30-52 | the state becomes `Configure` of the old state |
| RecordedZed.RecordedZedCamera.GetFrameCount | r2d2/camera_utils/readers/recorded_zed_camera.py:54-56 | 0 while skipping, otherwise the number of frames in the file when it is open and -1 (the SDK's "not playing") after a failed open or a close; unconfigured is an `AttributeError` |
| RecordedZed.RecordedZedCamera.ReadCamera | r2d2/camera_utils/readers/recorded_zed_camera.py:68-112 | the new state and the result are those of `ReadStep` |
| RecordedZed.RecordedZedCamera.SetFrameIndex | r2d2/camera_utils/readers/recorded_zed_camera.py:58-66 | the loop reaches the state `SetFrameIndexSpec` describes, or fails leaving the state unchanged |
| RecordedZed.RecordedZedCamera.DisableCamera | r2d2/camera_utils/readers/recorded_zed_camera.py:114-116 | the state becomes `Disabled` of the old state |
| RecordedMultiCamera.LastComponentIsTail | r2d2/camera_utils/wrappers/recorded_multi_camera_wrapper.py:16 | `f.split('/')[-1]` is the '/'-free tail of the path: the whole path, or the part after its last '/' |
| RecordedMultiCamera.DropLast4 | r2d2/camera_utils/wrappers/recorded_multi_camera_wrapper.py:16 | `[:-4]` removes the final four characters, or leaves nothing when there are fewer |
| RecordedMultiCamera.LastComponentOfName | r2d2/camera_utils/wrappers/recorded_multi_camera_wrapper.py:16 | the last component of folder + '/' + a '/'-free name is that name |
| RecordedMultiCamera.SerialOfRecording | r2d2/camera_utils/wrappers/recorded_multi_camera_wrapper.py:12-16 | a recording saved as folder/serial.svo gives back its serial number |
| RecordedMultiCamera.ParamsFor | r2d2/camera_utils/wrappers/recorded_multi_camera_wrapper.py:17-21 | a camera is configured with the keyword arguments of its type, or the defaults ({}) when there are none |
| RecordedMultiCamera.MergeIntoUpdates | r2d2/camera_utils/wrappers/recorded_multi_camera_wrapper.py:37 | merging keeps the modalities already there, adds the new ones, and within a modality the newer reading wins |
| RecordedMultiCamera.MergeEmpty | r2d2/camera_utils/wrappers/recorded_multi_camera_wrapper.py:37 | an empty reading contributes nothing |
| RecordedMultiCamera.TimestampFor | r2d2/camera_utils/wrappers/recorded_multi_camera_wrapper.py:31 | a camera is checked against the timestamp stored under cam_id + '_frame_received', or None when absent |
| RecordedMultiCamera.CameraOutcome | r2d2/camera_utils/wrappers/recorded_multi_camera_wrapper.py:31-33 | a camera seeks to `index` only when an index is given, then reads once |
| RecordedMultiCamera.ReadAll | r2d2/camera_utils/wrappers/recorded_multi_camera_wrapper.py:23-39 | the cameras are read in order, stopping at the first exception or the first None, with the data merged as it arrives |
| RecordedMultiCamera.ReadAllFrame | r2d2/camera_utils/wrappers/recorded_multi_camera_wrapper.py:30-33 | a read touches only the cameras it visits |
| RecordedMultiCamera.FullReadReadsEveryCamera | r2d2/camera_utils/wrappers/recorded_multi_camera_wrapper.py:30-39 | an observation comes back only when every camera was configured and none returned None, and with an index every reading camera then stands one frame past it |
| RecordedMultiCamera.NothingRequestedReadsNothing | r2d2/camera_utils/wrappers/recorded_multi_camera_wrapper.py:30-39 | when every camera skips reading and no index is given, the result is empty and no camera changes |
| RecordedMultiCamera.ReadAllTurn | r2d2/camera_utils/wrappers/recorded_multi_camera_wrapper.py:30-37 | one camera's turn either ends the read with its exception or None, or merges its data and goes on |
| RecordedMultiCamera.PendingStarts | r2d2/camera_utils/wrappers/recorded_multi_camera_wrapper.py:24-30 | before the loop, the whole read is still pending from an empty dict |
| RecordedMultiCamera.PendingEnds | r2d2/camera_utils/wrappers/recorded_multi_camera_wrapper.py:39 | after the last camera, the result is the merged dict |
| RecordedMultiCamera.ReadOne | r2d2/camera_utils/wrappers/recorded_multi_camera_wrapper.py:32-33 | one camera's seek and read leave the state and result of `CameraOutcome` |
| RecordedMultiCamera.RecordingAt | r2d2/camera_utils/wrappers/recorded_multi_camera_wrapper.py:12-20 | the recording a path names, or an empty recording that does not open |
| RecordedMultiCamera.TypeOf | r2d2/camera_utils/wrappers/recorded_multi_camera_wrapper.py:17 | the camera type of a registered serial, None otherwise |
| RecordedMultiCamera.SerialsSnoc | r2d2/camera_utils/wrappers/recorded_multi_camera_wrapper.py:15-20 | one more file adds its serial number |
| RecordedMultiCamera.SerialsOfFiles | r2d2/camera_utils/wrappers/recorded_multi_camera_wrapper.py:15-20 | the keys are exactly the serial numbers of the listed files |
| RecordedMultiCamera.IndexedInsert | r2d2/camera_utils/wrappers/recorded_multi_camera_wrapper.py:20 | assigning a new reader to a key lists each key once, in insertion order |
| RecordedMultiCamera.AllOpenedInsert | r2d2/camera_utils/wrappers/recorded_multi_camera_wrapper.py:20-21 | a newly opened reader keeps every key opened from its latest file |
| RecordedMultiCamera.OpenNext | r2d2/camera_utils/wrappers/recorded_multi_camera_wrapper.py:15-21 | one turn of the constructor's loop sets `camera_dict[serial]` to a new, configured reader on the next file |
| RecordedMultiCamera.OpenAll | r2d2/camera_utils/wrappers/recorded_multi_camera_wrapper.py:14-21 | after the loop there is a fresh reader for every serial, the later of two files with the same serial winning |
| RecordedMultiCamera.Open | r2d2/camera_utils/wrappers/recorded_multi_camera_wrapper.py:16-21 | a new reader on the file, keyed by its serial and configured with its type's keyword arguments |
| RecordedMultiCamera.RecordedMultiCameraWrapper.constructor | r2d2/camera_utils/wrappers/recorded_multi_camera_wrapper.py:9-21 | one reader per serial number taken from the file names, each configured with its type's keyword arguments |
| RecordedMultiCamera.RecordedMultiCameraWrapper.ReadTurn | r2d2/camera_utils/wrappers/recorded_multi_camera_wrapper.py:30-37 | one turn of the loop seeks and reads the next camera and stops or goes on as `ReadAll` does |
| RecordedMultiCamera.RecordedMultiCameraWrapper.ReadCameras | r2d2/camera_utils/wrappers/recorded_multi_camera_wrapper.py:23-39 | the result and every camera's new state are those of `ReadAll` over the shuffled order |
| RecordedMultiCamera.RecordedMultiCameraWrapper.DisableCameras | r2d2/camera_utils/wrappers/recorded_multi_camera_wrapper.py:41-43 | every camera is disabled |
| ZedReader.Fps | r2d2/camera_utils/readers/zed_camera.py:37-48 | calibration runs at 15 fps and trajectory at 100 fps |
| ZedReader.Latency | r2d2/camera_utils/readers/zed_camera.py:55 | the latency is 2.5 frame periods in milliseconds: latency times fps is 2500 |
| ZedReader.Disable | r2d2/camera_utils/readers/zed_camera.py:139-142 | disabling ends in 'disabled', is a no-op when already disabled (so idempotent), and closes the open camera, keeping at most one open |
| ZedReader.Configure | r2d2/camera_utils/readers/zed_camera.py:52-77 | reconfiguring sets the latency, closes the existing camera first and opens one new camera, which records nothing |
| ZedReader.SetMode | r2d2/camera_utils/readers/zed_camera.py:35-50 | a mode setter is a no-op when already in that mode, and otherwise reconfigures at the mode's frame rate and ends in that mode |
| ZedReader.Record | r2d2/camera_utils/readers/zed_camera.py:93-97 | recording starts exactly when the name ends in '.svo' and the SDK accepts it; otherwise an `AssertionError` |
| ZedReader.NeverTwoCamerasOpen | r2d2/camera_utils/readers/zed_camera.py:52-142 | whatever sequence of mode, disable and recording calls follows, no two SDK cameras are ever open at once |
| ZedReader.Read | r2d2/camera_utils/readers/zed_camera.py:103-137 | a failed grab gives None; otherwise the timestamps are read start, read end, frame received and estimated capture = received - latency, and the data has serial + '_left' and serial + '_right' for exactly the requested modalities |
| ZedReader.ZedCamera.constructor | r2d2/camera_utils/readers/zed_camera.py:25-31 | construction ends in trajectory mode with one camera open |
| ZedReader.ZedCamera.SetCalibrationMode | r2d2/camera_utils/readers/zed_camera.py:35-41 | the state becomes `SetMode` for calibration |
| ZedReader.ZedCamera.SetTrajectoryMode | r2d2/camera_utils/readers/zed_camera.py:43-50 | the state becomes `SetMode` for trajectory |
| ZedReader.ZedCamera.ConfigureCamera | r2d2/camera_utils/readers/zed_camera.py:52-77 | the state becomes `Configure` at the given frame rate |
| ZedReader.ZedCamera.StartRecording | r2d2/camera_utils/readers/zed_camera.py:93-97 | the state becomes that of `Record`, or is unchanged when an assertion fails |
| ZedReader.ZedCamera.StopRecording | r2d2/camera_utils/readers/zed_camera.py:99-100 | recording stops and nothing else changes |
| ZedReader.ZedCamera.ReadCamera | r2d2/camera_utils/readers/zed_camera.py:103-137 | the result is that of `Read` with the current latency |
| ZedReader.ZedCamera.DisableCamera | r2d2/camera_utils/readers/zed_camera.py:139-142 | the state becomes `Disable` of the old state |
| ZedReader.ZedCamera.IsRunning | r2d2/camera_utils/readers/zed_camera.py:144-145 | running exactly when the mode is not 'disabled' |
| ZedCameraReader.ModeLatencies | r2d2/camera_utils/camera_readers/zed_camera.py:76-106 | latency = int(2.5 * 1000 / fps) is 166 ms in calibration (15 fps) and 41 ms in trajectory (60 fps) |
| ZedCameraReader.ResizeFuncMap | r2d2/camera_utils/camera_readers/zed_camera.py:29-57 | only None and 'cv2' name a resizer; any other name is a `KeyError` |
| ZedCameraReader.ConfigureReading | r2d2/camera_utils/camera_readers/zed_camera.py:40-57 | the trajectory parameters are stored first; an unknown `resize_func` then raises `KeyError` and keeps the old resizer; the mode is untouched |
| ZedCameraReader.Disable | r2d2/camera_utils/camera_readers/zed_camera.py:206-212 | disabling ends in 'disabled', is a no-op when already disabled (so idempotent), and closes the camera if one was opened |
| ZedCameraReader.Configure | r2d2/camera_utils/camera_readers/zed_camera.py:103-131 | the latency is set, the old camera closed and one new camera opened; the `disable_camera` call inside leaves the mode 'disabled' |
| ZedCameraReader.EnterCalibration | r2d2/camera_utils/camera_readers/zed_camera.py:60-77 | corrected guard: nothing when already calibrating; otherwise full-size images, no resizing, a new camera at 15 fps, and the mode ends in calibration |
| ZedCameraReader.TrajectoryResolutions | r2d2/camera_utils/camera_readers/zed_camera.py:89-94 | without `resize_func` the SDK resolution is the trajectory resolution and the resizer is (0, 0); with it, the SDK resolution is (0, 0) and the resizer is the trajectory resolution |
| ZedCameraReader.EnterTrajectory | r2d2/camera_utils/camera_readers/zed_camera.py:79-101 | corrected guard: nothing when already in trajectory; `skip_reading` holds exactly when image, depth and pointcloud are all off; unset reading parameters are an `AttributeError`; otherwise the mode ends in trajectory |
| ZedCameraReader.ModeSetterAsWritten | r2d2/camera_utils/camera_readers/zed_camera.py:62-81 | as written, the guard reads `_current_mode`, which no method assigns, so either setter raises `AttributeError` and changes nothing |
| ZedCameraReader.ModeSetterRaisesWhereIntendedRuns | r2d2/camera_utils/camera_readers/zed_camera.py:37-81 | on a configured camera the as-written setter raises where the corrected one succeeds and leaves the camera running |
| ZedCameraReader.AssignFirstLeavesCameraOpenButDisabled | r2d2/camera_utils/camera_readers/zed_camera.py:79-112 | with only the guard corrected, the mode assigned before `_configure_camera` is overwritten with 'disabled', so the camera reports not running while its new SDK camera is open and never closed |
| ZedCameraReader.Record | r2d2/camera_utils/camera_readers/zed_camera.py:144-148 | recording starts exactly when the name ends in '.svo', a camera exists and the SDK accepts it; a bad name is an `AssertionError` and no camera an `AttributeError` |
| ZedCameraReader.StopRecord | r2d2/camera_utils/camera_readers/zed_camera.py:150-151 | stopping works exactly when a camera exists and clears the recording |
| ZedCameraReader.ProcessFrame | r2d2/camera_utils/camera_readers/zed_camera.py:154-158 | `_process_frame` is the identity when the resizer resolution is (0, 0), and otherwise resizes with cv2 |
| ZedCameraReader.Images | r2d2/camera_utils/camera_readers/zed_camera.py:180-190 | concatenated images give the single key serial; otherwise the keys are serial_left and serial_right |
| ZedCameraReader.Read | r2d2/camera_utils/camera_readers/zed_camera.py:160-204 | ({}, {}) when skipping; None on a failed grab; otherwise four timestamps with estimated capture = received - latency, and at most the image entry |
| ZedCameraReader.TrajectoryReadsNeverRaise | r2d2/camera_utils/camera_readers/zed_camera.py:160-204 | after entering trajectory mode through the corrected setter, a read never raises |
| ZedCameraReader.ZedCamera.constructor | r2d2/camera_utils/camera_readers/zed_camera.py:33-38 | a new camera has no mode and no parameters, and is the hand camera exactly when its serial is the hand camera id |
| ZedCameraReader.ZedCamera.SetReadingParameters | r2d2/camera_utils/camera_readers/zed_camera.py:40-57 | the state and result are those of `ConfigureReading` |
| ZedCameraReader.ZedCamera.SetCalibrationMode | r2d2/camera_utils/camera_readers/zed_camera.py:60-77 | the state becomes `EnterCalibration` of the old state |
| ZedCameraReader.ZedCamera.SetTrajectoryMode | r2d2/camera_utils/camera_readers/zed_camera.py:79-101 | the state and result are those of `EnterTrajectory` |
| ZedCameraReader.ZedCamera.ConfigureCamera | r2d2/camera_utils/camera_readers/zed_camera.py:103-131 | the state becomes `Configure` at the given frame rate |
| ZedCameraReader.ZedCamera.StartRecording | r2d2/camera_utils/camera_readers/zed_camera.py:144-148 | the state and result are those of `Record` |
| ZedCameraReader.ZedCamera.StopRecording | r2d2/camera_utils/camera_readers/zed_camera.py:150-151 | the state and result are those of `StopRecord` |
| ZedCameraReader.ZedCamera.ReadCamera | r2d2/camera_utils/camera_readers/zed_camera.py:160-204 | the result is that of `Read` on the current state |
| ZedCameraReader.ZedCamera.DisableCamera | r2d2/camera_utils/camera_readers/zed_camera.py:206-212 | the state becomes `Disable` of the old state |
| ZedCameraReader.ZedCamera.IsRunning | r2d2/camera_utils/camera_readers/zed_camera.py:214-215 | running exactly when `current_mode` is not 'disabled' |
| MultiCamera.ConstructAsWritten | r2d2/camera_utils/wrappers/multi_camera_wrapper.py:1-19 | as written: `gather_zed_cameras` comes from the reader module whose cameras have no `set_reading_parameters`, so one camera per device is opened in trajectory mode and then, with any device present, the constructor raises `AttributeError` |
| MultiCamera.PathJoin | r2d2/camera_utils/wrappers/multi_camera_wrapper.py:40 | `os.path.join` ends with the name, returns an absolute name as is, and otherwise puts one '/' between folder and name |
| MultiCamera.RecordingPath | r2d2/camera_utils/wrappers/multi_camera_wrapper.py:40 | a recording path is folder/serial + '.svo', so it always ends in '.svo' |
| MultiCamera.KwargsFor | r2d2/camera_utils/wrappers/multi_camera_wrapper.py:17-19 | each camera gets the reading arguments of its type, or the defaults ({}) when there are none |
| MultiCamera.LaunchedRuns | r2d2/camera_utils/wrappers/multi_camera_wrapper.py:16-22 | a configured and launched camera is in trajectory mode, running, with one SDK camera open, and skips reading exactly when its arguments request nothing |
| MultiCamera.IndexedInsert | r2d2/camera_utils/wrappers/multi_camera_wrapper.py:13 | entering a new reader under a serial lists each serial once, in insertion order |
| MultiCamera.Gather | r2d2/camera_utils/wrappers/multi_camera_wrapper.py:12-13 | `camera_dict` is keyed by each device's serial number, with a fresh reader for each; a later device with the same serial replaces the earlier one |
| MultiCamera.GatherOne | r2d2/camera_utils/wrappers/multi_camera_wrapper.py:13 | one device's reader entered under its serial, the other entries unchanged |
| MultiCamera.Prepare | r2d2/camera_utils/wrappers/multi_camera_wrapper.py:16-19 | every camera is configured with its type's arguments; an unknown resizer name is a `KeyError` |
| MultiCamera.Open | r2d2/camera_utils/wrappers/multi_camera_wrapper.py:9-22 | with the readers that have `set_reading_parameters`: the constructor succeeds exactly when every camera's resizer name is known, and then every camera is configured and in trajectory mode |
| MultiCamera.ReadAllIsUnion | r2d2/camera_utils/wrappers/multi_camera_wrapper.py:56-62 | a successful read holds every running camera's timestamps and data, and nothing but those and what was there before |
| MultiCamera.ShiftIndices | r2d2/camera_utils/wrappers/multi_camera_wrapper.py:56 | the rest of the order after its first camera |
| MultiCamera.Without | r2d2/camera_utils/wrappers/multi_camera_wrapper.py:56-57 | the order without one camera |
| MultiCamera.StoppedCameraIsSkipped | r2d2/camera_utils/wrappers/multi_camera_wrapper.py:57 | a camera that is not running is never read: removing it from the order changes nothing |
| MultiCamera.NothingRunningReadsNothing | r2d2/camera_utils/wrappers/multi_camera_wrapper.py:49-64 | with every camera stopped, `read_cameras` returns empty dicts |
| MultiCamera.FirstRefused | r2d2/camera_utils/wrappers/multi_camera_wrapper.py:39-41 | the first camera whose SDK refuses its recording file, where the loop raises |
| MultiCamera.AllRecordIffNoneRefused | r2d2/camera_utils/wrappers/multi_camera_wrapper.py:38-41 | recording starts on every camera exactly when no SDK refuses its file |
| MultiCamera.Recorded | r2d2/camera_utils/wrappers/multi_camera_wrapper.py:40-41 | a camera records to folder/serial.svo and stays configured and open |
| MultiCamera.PrefixGrows | r2d2/camera_utils/wrappers/multi_camera_wrapper.py:39 | after one more turn the loop has visited one more camera |
| MultiCamera.MultiCameraWrapper.constructor | r2d2/camera_utils/wrappers/multi_camera_wrapper.py:13 | the wrapper holds the gathered camera dict and its key order |
| MultiCamera.MultiCameraWrapper.SetTrajectoryMode | r2d2/camera_utils/wrappers/multi_camera_wrapper.py:33-35 | every camera enters trajectory mode, and none raises since every camera is configured |
| MultiCamera.MultiCameraWrapper.DisableCameras | r2d2/camera_utils/wrappers/multi_camera_wrapper.py:66-68 | every camera is disabled |
| MultiCamera.MultiCameraWrapper.SetCalibrationMode | r2d2/camera_utils/wrappers/multi_camera_wrapper.py:28-31 | every camera is disabled, then only the given id enters calibration; an unknown id is a `KeyError` after the cameras were disabled |
| MultiCamera.MultiCameraWrapper.StartRecording | r2d2/camera_utils/wrappers/multi_camera_wrapper.py:38-41 | in insertion order each camera records to folder/serial.svo; the first refusal raises `AssertionError` and exactly the cameras before it record |
| MultiCamera.MultiCameraWrapper.StopRecording | r2d2/camera_utils/wrappers/multi_camera_wrapper.py:43-45 | every camera stops recording and nothing else changes |
| MultiCamera.MultiCameraWrapper.ReadCameras | r2d2/camera_utils/wrappers/multi_camera_wrapper.py:48-64 | the result is `ReadAll` over the shuffled order: stopped cameras skipped, the running cameras' data and timestamps merged, a failed grab a `TypeError`; no camera changes |
| RealSense.LatencyIs83 | r2d2/camera_utils/camera_readers/realsense_camera.py:22-23 | at 30 frames per second the latency is int(2.5 * 1000 / 30) = 83 ms |
| RealSense.ColorResolution | r2d2/camera_utils/camera_readers/realsense_camera.py:35-43 | calibration mode streams colour at 1920x1080 and trajectory mode at 640x480, both positive |
| RealSense.Fresh | r2d2/camera_utils/camera_readers/realsense_camera.py:19-26 | a new reader has no mode, is not recording and has no pipeline running |
| RealSense.Disable | r2d2/camera_utils/camera_readers/realsense_camera.py:115-120 | only from calibration or trajectory mode is the pipeline stopped and the mode set to disabled; otherwise nothing changes, and afterwards no pipeline runs |
| RealSense.Configure | r2d2/camera_utils/camera_readers/realsense_camera.py:45-52 | the running pipeline is stopped, then one pipeline started with the colour stream at the requested resolution; recording state is untouched |
| RealSense.SetMode | r2d2/camera_utils/camera_readers/realsense_camera.py:35-43 | entering a mode always restarts the pipeline at that mode's resolution and then records the mode; at most one pipeline runs |
| RealSense.NeverConfiguredReportsRunning | r2d2/camera_utils/camera_readers/realsense_camera.py:117-124 | a reader never configured reports running, and disabling it leaves it so |
| RealSense.DisableIdempotent | r2d2/camera_utils/camera_readers/realsense_camera.py:115-120 | disabling twice is disabling once, and from a live mode the camera ends not running |
| RealSense.DepthFilename | r2d2/camera_utils/camera_readers/realsense_camera.py:77 | the depth file's name always ends in '_depth.mp4' |
| RealSense.DepthFileBesideColorFile | r2d2/camera_utils/camera_readers/realsense_camera.py:77 | when '.mp4' occurs only as the extension, the depth file is the colour file's name with '_depth' before '.mp4' |
| RealSense.EarlierExtensionCutsThePath | r2d2/camera_utils/camera_readers/realsense_camera.py:77 | an earlier '.mp4' in the path cuts the name there: 'a.mp4/c.mp4' records its depth to 'a_depth.mp4' |
| RealSense.Record | r2d2/camera_utils/camera_readers/realsense_camera.py:72-79 | a name not ending in '.mp4' is an AssertionError; otherwise new colour and depth writers are opened and recording starts, the mode unchanged |
| RealSense.StopRecord | r2d2/camera_utils/camera_readers/realsense_camera.py:81-86 | only while recording are both writers released, keeping their frames; afterwards nothing is recording |
| RealSense.StopRecordingIdempotent | r2d2/camera_utils/camera_readers/realsense_camera.py:81-86 | stopping twice is stopping once |
| RealSense.DepthByte | r2d2/camera_utils/camera_readers/realsense_camera.py:109 | every converted depth pixel lies in [0, 255] |
| RealSense.DepthByteEnds | r2d2/camera_utils/camera_readers/realsense_camera.py:103-109 | 0 mm maps to 0 and anything from 1000 mm on saturates at 255 |
| RealSense.DepthByteMonotone | r2d2/camera_utils/camera_readers/realsense_camera.py:109 | farther is never darker: the conversion is monotone |
| RealSense.DepthByteIsIntegerScale | r2d2/camera_utils/camera_readers/realsense_camera.py:109 | the conversion equals x * 255 / 1000 rounded down and capped at 255 |
| RealSense.ConvertDepth | r2d2/camera_utils/camera_readers/realsense_camera.py:109 | the converted image has the raw image's size and each pixel converted |
| RealSense.Read | r2d2/camera_utils/camera_readers/realsense_camera.py:88-113 | waiting on a pipeline that is not running (never started or disabled) raises RuntimeError, so a successful read happens only in a live mode; timestamps are serial_read_start and serial_read_end; 'image' and 'depth' appear exactly as requested, under the serial; without reading parameters the read raises AttributeError |
| RealSense.FramesWrittenOnlyWhileRecording | r2d2/camera_utils/camera_readers/realsense_camera.py:98-112 | on a running pipeline with reading parameters, a read changes nothing unless recording; while recording each writer gains exactly the image returned for its modality |
| RealSense.NeverTwoPipelines | r2d2/camera_utils/camera_readers/realsense_camera.py:45-120 | whatever the caller does, no two pipelines run at once and recording always has both writers open |
| RealSense.RealSenseCamera.constructor | r2d2/camera_utils/camera_readers/realsense_camera.py:19-26 | a new reader for the device's serial, in the fresh state |
| RealSense.RealSenseCamera.SetReadingParameters | r2d2/camera_utils/camera_readers/realsense_camera.py:28-33 | only image and depth are kept; nothing else changes |
| RealSense.RealSenseCamera.SetCalibrationMode | r2d2/camera_utils/camera_readers/realsense_camera.py:35-38 | the state becomes SetMode(calibration) |
| RealSense.RealSenseCamera.SetTrajectoryMode | r2d2/camera_utils/camera_readers/realsense_camera.py:40-43 | the state becomes SetMode(trajectory) |
| RealSense.RealSenseCamera.ConfigureCamera | r2d2/camera_utils/camera_readers/realsense_camera.py:45-52 | the state becomes Configure at the given width and height |
| RealSense.RealSenseCamera.StartRecording | r2d2/camera_utils/camera_readers/realsense_camera.py:72-79 | the state becomes Record's, or on AssertionError stays as it was |
| RealSense.RealSenseCamera.StopRecording | r2d2/camera_utils/camera_readers/realsense_camera.py:81-86 | the state becomes StopRecord's |
| RealSense.RealSenseCamera.ReadCamera | r2d2/camera_utils/camera_readers/realsense_camera.py:88-113 | returns Read's reading and takes its new state, or the error with the state unchanged |
| RealSense.RealSenseCamera.DisableCamera | r2d2/camera_utils/camera_readers/realsense_camera.py:115-120 | the state becomes Disable's |
| RealSense.RealSenseCamera.IsRunning | r2d2/camera_utils/camera_readers/realsense_camera.py:122-124 | true exactly when the mode is not disabled |
| RealSense.GatherRealSenseCameras | r2d2/camera_utils/camera_readers/realsense_camera.py:8-15 | one fresh reader per connected device, in the order listed, each with that device's serial |
| TrajectoryWriter.Lookup | r2d2/misc/trajectory_writer.py:20 | `d[key]` finds a value exactly when the key is present, and the value found is one stored under that key |
| TrajectoryWriter.KeysCons | r2d2/misc/trajectory_writer.py:18 | the keys of a dictionary with one more entry in front are that entry's key and the rest's keys |
| TrajectoryWriter.Remove | r2d2/misc/trajectory_writer.py:64 | `del d[key]` leaves exactly the other entries and the other keys |
| TrajectoryWriter.Stack | r2d2/misc/trajectory_writer.py:21-22 | `np.array(list)` stacks the items along a new first axis whose length is the number of items |
| TrajectoryWriter.NumbersStackToVector | r2d2/misc/trajectory_writer.py:21-22 | a list of numbers becomes the vector of those numbers |
| TrajectoryWriter.WriteOne | r2d2/misc/trajectory_writer.py:18-40 | writing one key changes the group under that key only, whether it succeeds or raises; a key that succeeds is present afterwards |
| TrajectoryWriter.WriteGroup | r2d2/misc/trajectory_writer.py:26-29 | a dictionary value changes the group under its key only |
| TrajectoryWriter.WriteLeaf | r2d2/misc/trajectory_writer.py:31-40 | a leaf value changes the dataset under its key only, and a key it succeeds on is present afterwards |
| TrajectoryWriter.FirstFailure | r2d2/misc/trajectory_writer.py:18 | the index of the first key whose write on its own raises: every key before it succeeds alone, and the key at it fails |
| TrajectoryWriter.WriteFailsIffAKeyFails | r2d2/misc/trajectory_writer.py:16-40 | writing a dictionary raises exactly when some key, written on its own, raises |
| TrajectoryWriter.WriteOneIsLocal | r2d2/misc/trajectory_writer.py:18-40 | a key's write, its error and what it leaves under the key, depends only on what the group holds under that key, and leaves every other key as it was |
| TrajectoryWriter.KeysWrittenIndependently | r2d2/misc/trajectory_writer.py:16-40 | writing a dictionary raises the error of the first key that fails on its own; every key up to and including that one holds what writing it alone leaves (so earlier keys stay written), and every later or absent key is untouched |
| TrajectoryWriter.LeafAppendsOneRow | r2d2/misc/trajectory_writer.py:32-40 | a new leaf key creates a dataset of the value's shape holding the value; an existing dataset gains exactly one row after the rows it had, the value broadcast to its row shape |
| TrajectoryWriter.FailedLeafLeavesZeroRow | r2d2/misc/trajectory_writer.py:36-40 | a value that an existing dataset cannot take raises TypeError after the resize, so the dataset keeps an extra row of zeros |
| TrajectoryWriter.Zeros | r2d2/misc/trajectory_writer.py:37 | the fill row a resize adds has the row's size and only zeros |
| TrajectoryWriter.BroadcastOwnShape | r2d2/misc/trajectory_writer.py:40 | an array whose cells fill its shape, assigned to a row of that shape, is stored cell for cell |
| TrajectoryWriter.ScalarFillsRow | r2d2/misc/trajectory_writer.py:40 | a number assigned to a row of n cells broadcasts to fill all n cells |
| TrajectoryWriter.VectorMissesScalarRow | r2d2/misc/trajectory_writer.py:40 | a two-number vector does not broadcast to a row of shape (), so its assignment raises |
| TrajectoryWriter.PartialWriteExample | r2d2/misc/trajectory_writer.py:16-40 | a timestep whose second key does not fit raises TypeError with the first key already written and the dataset of the second grown by a zero row |
| TrajectoryWriter.DictWritesIntoGroup | r2d2/misc/trajectory_writer.py:26-29 | a nested dictionary is written into the group under its key, created when missing; the group stays, holding what the recursion wrote, even when the recursion raises, and the error is the recursion's |
| TrajectoryWriter.WrittenDataReadsBack | r2d2/misc/trajectory_writer.py:16-40 | after a write that does not raise, the last row of every leaf's dataset is that leaf broadcast to the row shape: the dictionary reads back |
| TrajectoryWriter.FailedWriteKeepsEarlierKeys | r2d2/misc/trajectory_writer.py:16-40 | after a write that raises, every key before the failing one reads back as written |
| TrajectoryWriter.KeysWritten | r2d2/misc/trajectory_writer.py:16-40 | every key before the first failing one reads back |
| TrajectoryWriter.OneReadsBack | r2d2/misc/trajectory_writer.py:18-40 | the same for one key and its value |
| TrajectoryWriter.WriteDictToHdf5 | r2d2/misc/trajectory_writer.py:16-40 | the loop over the keys, creating groups before recursing and resizing datasets before assigning, leaves the tree and error WriteEntries gives, partial writes included |
| TrajectoryWriter.WriteLeafInPlace | r2d2/misc/trajectory_writer.py:31-40 | creating or resizing the dataset and then assigning its last row leaves the tree and error WriteLeaf gives |
| TrajectoryWriter.Put | r2d2/misc/trajectory_writer.py:91-114 | one image joins the end of its video's queue, the queue and writer created on first use; other queues unchanged |
| TrajectoryWriter.PutImages | r2d2/misc/trajectory_writer.py:84-114 | queueing one camera's images keeps one queue per writer |
| TrajectoryWriter.PutCameras | r2d2/misc/trajectory_writer.py:83-114 | queueing every camera's images keeps one queue per writer |
| TrajectoryWriter.EveryImageQueued | r2d2/misc/trajectory_writer.py:83-114 | every image reaches the queue of its own video id camera_image, in order, and no other queue |
| TrajectoryWriter.FirstNonDict | r2d2/misc/trajectory_writer.py:83-84 | the first camera entry that is not a dictionary, where the loop raises |
| TrajectoryWriter.CameraDict | r2d2/misc/trajectory_writer.py:81 | `timestep['observations']['camera_dict']` is found only when every step is a dictionary holding its key |
| TrajectoryWriter.WithoutCameras | r2d2/misc/trajectory_writer.py:64 | afterwards the caller's observations lack `camera_dict` and keep every other entry; the rest of the timestep keeps its entries in place |
| TrajectoryWriter.Replace | r2d2/misc/trajectory_writer.py:64 | the value under one key is replaced where it stands and every other entry kept |
| TrajectoryWriter.TrajectoryWriterState.constructor | r2d2/misc/trajectory_writer.py:44-56 | a new writer holds an empty file, no queues and no writers; the metadata, when given, becomes the attributes |
| TrajectoryWriter.TrajectoryWriterState.UpdateMetadata | r2d2/misc/trajectory_writer.py:68-70 | the loop over the metadata stores Attributes(metadata) |
| TrajectoryWriter.TrajectoryWriterState.WriteTimestep | r2d2/misc/trajectory_writer.py:62-66 | every camera image is queued for its video; then `camera_dict` is deleted and the rest queued for the HDF5 file; a malformed timestep raises TypeError with the earlier cameras' images queued, nothing else queued, and those cameras' images deleted from the caller's `camera_dict` |
| TrajectoryWriter.TrajectoryWriterState.UpdateVideoFiles | r2d2/misc/trajectory_writer.py:80-114 | the images are queued camera by camera; a camera entry that is not a dictionary raises TypeError after the earlier cameras' images |
| TrajectoryWriter.TrajectoryWriterState.QueueImages | r2d2/misc/trajectory_writer.py:84-114 | the inner loop queues exactly PutImages |
| TrajectoryWriter.TrajectoryWriterState.WriteFromHdf5Queue | r2d2/misc/trajectory_writer.py:72-78 | one turn of the HDF5 thread: the oldest timestep is taken off the queue and written, and the file becomes whatever the write left; a write that does not raise is counted, one that raises ends the thread uncounted with that error |
| TrajectoryWriter.TrajectoryWriterState.Close | r2d2/misc/trajectory_writer.py:116-130 | with the queues drained, the file becomes CloseFile's and the writer closes; on failure nothing changes |
| TrajectoryWriter.CloseFile | r2d2/misc/trajectory_writer.py:123-127 | `observations/videos` holds one dataset per video id with that video's encoding and nothing else in the file changes; a missing `observations` is a KeyError, an existing `videos` a ValueError |
| TrajectoryWriter.PutCamerasStep | r2d2/misc/trajectory_writer.py:83 | one more camera of the outer loop |
| TrajectoryWriter.Attributes | r2d2/misc/trajectory_writer.py:68-70 | the attributes' keys are exactly the metadata's keys |
| TrajectoryWriter.MetadataLostAsWritten | r2d2/misc/trajectory_writer.py:70 | as written, `attr` is not an attribute of an h5py file, so any metadata raises AttributeError; the corrected writer stores it |
| TrajectoryWriter.AttributesStoreEveryEntry | r2d2/misc/trajectory_writer.py:68-70 | with distinct keys, each metadata entry is stored under its key |
| TrajectoryWriter.WithEmptiedCameras | r2d2/misc/trajectory_writer.py:83-88 | after a raise at camera n the caller's `camera_dict` holds the first n cameras with no images left and the rest as they were; nothing outside `observations` changes |
| TrajectoryWriter.LookupReplaced | r2d2/misc/trajectory_writer.py:88 | a key replaced in place reads back as its new value |
| TrajectoryWriter.WriterNeverConstructed | r2d2/misc/trajectory_writer.py:44-60 | as written the constructor always raises: AttributeError at the metadata when there is any, otherwise TypeError at the thread launch, since `run_threaded_command` takes the command alone |
| TrajectoryWriter.NewVideoRaisesAsWritten | r2d2/misc/trajectory_writer.py:91-98 | as written, a camera's images raise exactly when one of them starts a new video, and the error is TypeError; with no new video the queues are those of PutImages |
| TrajectoryWriter.FirstFrameLostAsWritten | r2d2/misc/trajectory_writer.py:86-98 | as written, the first image of a new video is deleted from the timestep and raises TypeError with its queue created empty, where the intended writer queues it |
| PyDict.Put | r2d2/postprocessing/stages.py:74 | `d[k] = v` stores v under k and changes no other key; an existing key keeps its place and a new key goes last |
| PyDict.Without | r2d2/postprocessing/stages.py:75 | the order without one key holds exactly the other keys |
| PyDict.WithoutNoDup | r2d2/postprocessing/stages.py:75 | removing a key from an order without duplicates leaves one without duplicates |
| PyDict.Pop | r2d2/postprocessing/stages.py:75 | `d.pop(k, None)` removes k and changes no other key; popping a missing key changes nothing |
| Stages.KeepDayDirs | r2d2/postprocessing/stages.py:50 | exactly the accepted day directories among the names are kept, and sorted names stay sorted |
| Stages.DayNames | r2d2/postprocessing/stages.py:50 | the day directories are exactly the accepted directory entries, in strictly increasing order |
| Stages.DayVisitsAreSubdirectories | r2d2/postprocessing/stages.py:55 | a day's visits are exactly its sub-directories, each under outcome/day/name |
| Stages.VisitsOnlyDaysFromStart | r2d2/postprocessing/stages.py:51-55 | only sub-directories of days dated from the start date on are visited |
| Stages.VisitsEveryDayFromStart | r2d2/postprocessing/stages.py:51-55 | every sub-directory of every accepted day dated from the start date on is visited |
| Stages.Verdict | r2d2/postprocessing/stages.py:58-71 | a trajectory is indexed exactly when its user and user id parse and its SVO files exist; otherwise it gets the message of the first failing check |
| Stages.IndexAll | r2d2/postprocessing/stages.py:55-76 | indexing one outcome changes nothing of the other, and both dictionaries stay dictionaries |
| Stages.IndexAllSnoc | r2d2/postprocessing/stages.py:55-76 | one more visit is one more turn of the loop body |
| Stages.IndexOutcome | r2d2/postprocessing/stages.py:45-50 | a missing `failure/` is passed over; a missing `success/` cannot be listed (FileNotFoundError) |
| Stages.Indexing | r2d2/postprocessing/stages.py:45-78 | indexing fails exactly when `success/` is missing, and keeps both dictionaries valid |
| Stages.IndexedIffPassed | r2d2/postprocessing/stages.py:58-74 | a uuid is indexed afterwards exactly when it was before or a visited trajectory passed every check with that uuid |
| Stages.ErroredMatchesVerdict | r2d2/postprocessing/stages.py:60-75 | each visited path ends in `errored_paths` with the message of the check it failed, or is cleared there when indexed; other paths keep their entries |
| Stages.ProcessAll | r2d2/postprocessing/stages.py:93-139 | processing one outcome changes nothing of the other, and both dictionaries stay dictionaries |
| Stages.ProcessAllSnoc | r2d2/postprocessing/stages.py:93-139 | one more item is one more turn of the loop body |
| Stages.ProcessedIffReady | r2d2/postprocessing/stages.py:96-139 | a uuid is processed afterwards exactly when it was before, or it is indexed and its trajectory converts and validates; a parse error alone does not keep it out |
| Stages.ProcessedAreSkipped | r2d2/postprocessing/stages.py:96-97 | an already processed uuid is passed over and its entry stays as it was |
| Stages.ParseErrorAloneIsCleared | r2d2/postprocessing/stages.py:107-139 | a trajectory whose metadata did not parse but which converts and validates is processed and its parse error cleared |
| Stages.FailedCheckIsRecorded | r2d2/postprocessing/stages.py:120-131 | a trajectory failing a check is not processed and keeps the message of the last failing check |
| Stages.Cache.constructor | scripts/postprocess.py:149-158 | a fresh cache: every total zero and every per-outcome dictionary empty |
| Stages.RunIndexing | r2d2/postprocessing/stages.py:34-78 | the cache's `indexed_uuids` and `errored_paths` become Indexing's; on FileNotFoundError they stay as they were |
| Stages.IndexDays | r2d2/postprocessing/stages.py:50-76 | the day loop computes IndexAll over the visits |
| Stages.VisitsSnoc | r2d2/postprocessing/stages.py:51-53 | one more day adds its visits, or none when it is before the start date |
| Stages.DayVisitsSnoc | r2d2/postprocessing/stages.py:55 | one more entry adds a visit exactly when it is a directory |
| Stages.IndexDay | r2d2/postprocessing/stages.py:55-76 | the trajectory loop of one day adds that day's visits |
| Stages.IndexTrajectory | r2d2/postprocessing/stages.py:56-76 | one trajectory updates the ledger as IndexOne says |
| Stages.RunProcessing | r2d2/postprocessing/stages.py:82-141 | `processed_uuids` and `errored_paths` become Processing's, and `indexed_uuids` is only read |
| Stages.ProcessItems | r2d2/postprocessing/stages.py:93-139 | the loop over one outcome's items computes ProcessOutcome |
| Stages.ProcessTrajectory | r2d2/postprocessing/stages.py:96-139 | one item updates the ledger as ProcessOne says |
| Postprocess.LastLab | scripts/postprocess.py:108 | finds a lab exactly when some lab lists the member, and then it is the last lab listing them |
| Postprocess.MembersResolveToLastLab | scripts/postprocess.py:108 | every registered member resolves to themself in the last lab that lists them, and nothing else comes from the members |
| Postprocess.AliasesResolve | scripts/postprocess.py:107-114 | a name is an alias exactly when it is explicit or registered; an explicit alias wins, and any other name resolves to its last lab |
| Postprocess.AntonioHerreraResolvesToTri | scripts/postprocess.py:66-108 | listed under both IRIS and TRI, "Antonio Herrera" resolves to TRI |
| Postprocess.LastListedWins | scripts/postprocess.py:108 | a member of the last lab resolves to that lab unless an explicit alias takes the name |
| Postprocess.AliasesAreCanonical | scripts/postprocess.py:105-114 | when the explicit aliases name a lab and one of its members, every alias does |
| Postprocess.RegisteredAliasesAreCanonical | scripts/postprocess.py:107-114 | every registered alias names a lab and one of its members |
| Postprocess.Bind | scripts/postprocess.py:174-199 | a call binds exactly when no keyword names an unknown or positionally filled parameter and every other parameter is named; otherwise TypeError |
| Postprocess.StageCallsRaise | scripts/postprocess.py:174-199 | as written, both stage calls pass `totals`, which neither stage takes, so each raises TypeError before its stage starts |
| Postprocess.Summarize | scripts/postprocess.py:222-232 | the printed error total is the success errors plus the failure errors |
| Postprocess.FreshSummaryIsZero | scripts/postprocess.py:149-158 | a fresh cache sums to zero everywhere |
| Postprocess.Entered | scripts/postprocess.py:169-214 | as written, a stage is entered only when its flag is set, the start date parses and every earlier stage entered returned |
| Postprocess.Run | scripts/postprocess.py:144-232 | the stored cache is used only when its start date matches; the stages run as written; the summary is printed from the cache on every path |
| Postprocess.LoadCache | scripts/postprocess.py:149-166 | a fresh cache for the lab and start date, every count zero and every outcome dictionary empty, replaced by the stored one when its `start_date` matches |
| Postprocess.RunStages | scripts/postprocess.py:169-214 | as written: an unparsable start date is ValueError, and a set index or process flag is TypeError; otherwise the upload's outcome |
| Postprocess.IndexStage | scripts/postprocess.py:173-184 | with its flag set, indexing runs on the cache; otherwise the cache stays as it was |
| Postprocess.RunStagesIntended | scripts/postprocess.py:169-214 | with the stage calls binding: indexing, then processing over the indexed uuids, then the upload, each when its flag is set; a missing `success/` ends the run during indexing |
| PyStrings.ContainsMatchesScan | r2d2/user_interface/gui.py:186-194 | the scan for a substring finds it exactly when it occurs somewhere |
| PyStrings.Find | r2d2/camera_utils/camera_readers/realsense_camera.py:77 | the first position where the substring occurs, or -1 when it occurs nowhere |
| PyStrings.BeforeFirst | r2d2/camera_utils/camera_readers/realsense_camera.py:77 | the text before the first occurrence does not contain it |
| PyStrings.Split | r2d2/user_interface/gui.py:488 | splitting yields at least one piece |
| PyStrings.JoinSplit | r2d2/user_interface/gui.py:488 | joining the pieces with the separator gives the string back, and no piece contains the separator |
| PyStrings.Head | r2d2/camera_utils/camera_readers/realsense_camera.py:77 | `s.split(sep)[0]` is a prefix of s without the separator, followed in s by the separator whenever it occurs |
| PyStrings.LessTotal | r2d2/postprocessing/stages.py:50 | any two different strings are ordered one way or the other |
| PyStrings.SetMin | r2d2/postprocessing/stages.py:50 | the least string of a non-empty set is in it |
| PyStrings.SortedSet | r2d2/postprocessing/stages.py:50 | `sorted` of a set of names holds each name once, in strictly increasing order |
| PyStrings.Insert | r2d2/training/processing/timestep_processing.py:47 | inserting into a sorted list keeps it sorted and adds exactly one element |
| PyStrings.SortSeq | r2d2/training/processing/timestep_processing.py:47 | `sorted(xs)` is sorted and a permutation of xs |
| PyStrings.Remove | r2d2/user_interface/gui.py:487-488 | `s.replace(sub, '')` adds no character |
| PyStrings.RemoveChar | r2d2/user_interface/gui.py:487 | deleting a character leaves none of it behind |
| PyStrings.RemoveAbsent | r2d2/user_interface/gui.py:488 | a string without sub comes through the deletion unchanged |
| PyStrings.RemoveItself | r2d2/user_interface/gui.py:488 | deleting a string from itself leaves nothing |
| Gui.RunStarts | r2d2/user_interface/gui.py:188 | a run without spaces is one word, or none when it is empty |
| Gui.StartsAroundSpace | r2d2/user_interface/gui.py:188 | a space separates the words on its two sides |
| Gui.WordsCount | r2d2/user_interface/gui.py:188 | the non-empty pieces of the split on single spaces are exactly the maximal runs of non-space characters |
| Gui.NameAccepted | r2d2/user_interface/gui.py:188-189 | a name is accepted exactly when it has at least two words and does not contain the missing-name text |
| Gui.ReplacementIsRejected | r2d2/user_interface/gui.py:189-194 | the text that replaces a rejected name is itself rejected |
| Gui.Ticked | r2d2/user_interface/gui.py:470-472 | the fixed tasks are exactly the ticked boxes' tasks, in box order |
| Gui.KeepTasks | r2d2/user_interface/gui.py:489 | exactly the pieces that are tasks are kept |
| Gui.NewTasksAreTasks | r2d2/user_interface/gui.py:486-490 | every new task is non-empty, has a non-whitespace character, and holds neither ';' nor a line feed |
| Gui.PieceChars | r2d2/user_interface/gui.py:488 | each piece of a split is made of the string's characters |
| Gui.NoticeReadsAsNoTasks | r2d2/user_interface/gui.py:480-490 | the notice written into an empty task box reads back as no tasks, when it has no line feed |
| Gui.Range | r2d2/user_interface/gui.py:43 | `np.arange(n)` lists 0 to n - 1 in order |
| Gui.Swapped | r2d2/user_interface/gui.py:101-103 | exchanging two positions keeps the length |
| Gui.SwapPermutes | r2d2/user_interface/gui.py:101-103 | exchanging two positions keeps each camera once, and exchanging them again restores the order |
| Gui.DoubleClickEnlarges | r2d2/user_interface/gui.py:713-721 | clicking twice on one box enlarges it, clears the selection and leaves the order alone |
| Gui.TwoClicksSwap | r2d2/user_interface/gui.py:713-725 | clicking one box and then another exchanges them and clears the selection |
| Gui.ClickKeepsOrder | r2d2/user_interface/gui.py:713-725 | no sequence of clicks loses or duplicates a camera, and the selection stays in range |
| Gui.Grid | r2d2/user_interface/gui.py:656-657 | one row for up to two cameras and two otherwise; rows times columns hold every camera, with no column to spare |
| Gui.ImageBoxes | r2d2/user_interface/gui.py:695-705 | the grid loop makes one box per camera, labelled 0 to n - 1 in order |
| Gui.PressesClosedForm | r2d2/user_interface/gui.py:128-134 | between two refreshes the 25th Enter press resets the robot, and after that every 75th |
| Gui.MoveRobot | r2d2/user_interface/gui.py:638-641 | the robot is due to move exactly when the count is positive and the frequency divides it; a zero frequency is ZeroDivisionError |
| Gui.DividesRemainder | r2d2/user_interface/gui.py:640 | a multiple of the frequency leaves no remainder |
| Gui.MulNonNegative | r2d2/user_interface/gui.py:640 | a product of non-negative numbers is non-negative |
| Gui.NextPage | r2d2/user_interface/gui.py:816-818 | after practice the scene configuration page; otherwise the scene changes page exactly on a scene change, else the requested behaviour page |
| Gui.SampleChange | r2d2/user_interface/gui.py:638-645 | the move-robot notice when the robot is due to move, otherwise the change drawn at random; a zero frequency is ZeroDivisionError |
| Gui.Natural | r2d2/user_interface/gui.py:789 | `str(n)` is a non-empty string of digits |
| Gui.ValueNatural | r2d2/user_interface/gui.py:789 | `str(n)` reads back as n |
| Gui.MinutesOfSeconds | r2d2/user_interface/gui.py:789-790 | whole minutes from the real division agree with whole minutes from the whole seconds |
| Gui.SecondsDigits | r2d2/user_interface/gui.py:792-793 | the seconds are always two digits and read back as the seconds |
| Gui.ColonAfter | r2d2/user_interface/gui.py:797 | the first colon of minutes:seconds is the one after the minutes |
| Gui.TimerTextParts | r2d2/user_interface/gui.py:789-797 | the timer text is the minutes, a colon and the two-digit seconds |
| Gui.TimerReadsBack | r2d2/user_interface/gui.py:789-797 | read back, the timer shows the whole seconds elapsed: minutes before the colon, two digits under 60 after it |
| Gui.Initialize | r2d2/user_interface/gui.py:496-768 | the `initialize_page` hooks: scene pages put the camera page in live mode, the requested behaviour page in trajectory mode sampling a task unless one is kept, the camera page starts a replay or a timer; only sampling a change with a zero frequency raises |
| Gui.KeptTaskLastsOneVisit | r2d2/user_interface/gui.py:549-598 | a kept task survives exactly one visit to the requested behaviour page |
| Gui.ListenForRobotInfo | r2d2/user_interface/gui.py:140-154 | reading by reading, the controller key event fires exactly where the save or delete trigger rises (a held trigger fires once), and the controller-off page is shown exactly where the controller goes from on to off, the listener starting released and on |
| Gui.Shown | r2d2/user_interface/gui.py:90-94 | a page change within 0.1 s of the last one is ignored; otherwise the page becomes current at that time |
| Gui.RobotGui.constructor | r2d2/user_interface/gui.py:33-88 | nothing saved, the cameras in their own order, the grid laid out, the Enter count zeroed, and the login page shown |
| Gui.RobotGui.Raise | r2d2/user_interface/gui.py:90-99 | the page is shown unless too soon after the last change |
| Gui.RobotGui.ShowFrame | r2d2/user_interface/gui.py:90-99 | the page is raised, then initialised when it was raised and `refresh_page` is set |
| Gui.RobotGui.InitializePage | r2d2/user_interface/gui.py:95-96 | the page's `initialize_page` hook runs as Initialize says |
| Gui.RobotGui.SwapImgOrder | r2d2/user_interface/gui.py:101-103 | the cameras at positions i and j change places |
| Gui.RobotGui.UpdateImageGrid | r2d2/user_interface/gui.py:713-725 | a first click selects, a second on the same box enlarges it, a click on another box swaps the two |
| Gui.RobotGui.RobotReset | r2d2/user_interface/gui.py:128-134 | an Enter press counts one up; the 25th resets the robot and sets the count to -50 |
| Gui.RobotGui.RefreshEnterVariable | r2d2/user_interface/gui.py:136-138 | the Enter count is zeroed |
| Gui.RobotGui.CheckCompleteness | r2d2/user_interface/gui.py:186-194 | an accepted name is stored and the scene configuration page shown; otherwise the entry is replaced by the missing-name text |
| Gui.RobotGui.MonitorSceneKeys | r2d2/user_interface/gui.py:461-475 | on the scene configuration page, a Shift shows the camera page, and the fixed and new tasks are read again |
| Gui.RobotGui.FinishSetup | r2d2/user_interface/gui.py:477-484 | with no task chosen the box shows the notice, otherwise the requested behaviour page opens |
| Gui.RobotGui.EndTrajectory | r2d2/user_interface/gui.py:800-820 | practice leaves the count alone, a saved run adds one, otherwise the last task is kept; the next page follows NextPage with the move-robot rule |
| Gui.RobotGui.MonitorCameraKeys | r2d2/user_interface/gui.py:735-746 | only while the camera or enlarged-image page shows: Shift in live mode returns to the home page unrefreshed (no home page yet is an AttributeError), the button during a trajectory ends it with EndTrajectory's outcome, anything else changes nothing |
| Gui.RobotGui.MonitorResetKeys | r2d2/user_interface/gui.py:224-231 | the robot is reset exactly when the reset page shows; then the page set by the last trajectory is shown, and an unset next page is an AttributeError that changes nothing |
| Gui.RobotGui.MonitorControllerOffKeys | r2d2/user_interface/gui.py:245-247 | only on the controller-off page, the login page is shown and no page state changes |
| Gui.RobotGui.MonitorTaskKeys | r2d2/user_interface/gui.py:333-338 | only on the preferred-tasks page and only for Shift: that page becomes the camera page's home page and the camera page is shown and initialised |
| Gui.RobotGui.PracticeRobot | r2d2/user_interface/gui.py:492-494 | the camera page is shown in practice mode, with no replay running once it is initialised |
| Gui.RobotGui.ReplayTraj | r2d2/user_interface/gui.py:592-595 | with no recorded trajectory nothing changes; otherwise the camera page is shown in replay mode and the replay starts at step 0 over the last trajectory |
| Gui.RobotGui.EditTrajectory | r2d2/user_interface/gui.py:828-831 | the robot saves the trajectory exactly when asked to and deletes it otherwise, then the requested behaviour page is shown and initialised |
| Gui.RobotGui.EnableReplay | r2d2/user_interface/gui.py:116-118 | the replay starts at step 0 of the last trajectory |
| Gui.RobotGui.UpdateTimeIndex | r2d2/user_interface/gui.py:123-126 | the replay moves one step on, wrapping round at the end; an empty trajectory is ZeroDivisionError |

## Left out

- Floating point: every float is a `real`, so rounding, NaN and infinities are not modelled. scipy's Euler, quaternion and matrix conversions are the abstract `Rotations.RotationModel`, whose laws are hypotheses rather than facts about scipy.
- Background threads and their races are collapsed into sequential steps:
  - the VR poller loop is `OculusController.VRPolicy.PollOnce`, one iteration per call;
  - the trajectory writer's HDF5 thread is `TrajectoryWriter.TrajectoryWriterState.WriteFromHdf5Queue`, one queued timestep per call;
  - the video queues are kept as the frames queued per video, and `Close` encodes them whole;
  - the Franka's threaded commands are a log of the commands sent.
- Clocks, sleeping and random draws are inputs. This covers `time.time()`, `time.sleep`, the shuffled camera read order and the GUI's random task and scene sampling.
- The ZED, RealSense, polymetis, OpenCV, pygame and oculus_reader SDKs are modelled only by what the modelled code observes:
  - counters of cameras opened and closed;
  - grab results and frames given as parameters;
  - writers as file name plus frames written;
  - two SDK behaviours come from their documentation, not from the code: pyrealsense2's `wait_for_frames` raises `RuntimeError` on a pipeline that is not running, and the ZED SDK's `get_svo_number_of_frames` returns -1 when no SVO file is being played.
- Camera intrinsics and the ZED SDK's own latency value are not modelled. The `_latency` field of each reader is the source's fixed 2.5-frame estimate.
- File and disk I/O is not modelled: `save_trajectory`/`load_trajectory` in r2d2/misc/trajectory_utils.py, JSON cache dumping and loading, directory listings (given as data) and HDF5 file handles (a file is the value of its tree).
- TrajectoryWriter: as shipped, r2d2/misc/trajectory_writer.py cannot be imported. Its line 1 takes `MP4Writer`, `DepthMP4Writer`, `encode_depth_data` and `decode_depth_data` from r2d2/misc/compression_utils.py, which defines none of them, and that file's line 5 imports a module `nupy` that does not exist. The model describes the writer as if those imports resolved, with the video encoding as a parameter.
- TrajectoryWriter.ToRow: a list that is not a regular numeric array is modelled as NumPy before 1.24 treats it, an object array that h5py refuses with `TypeError` at the assignment (after an existing dataset's resize). Newer NumPy raises `ValueError` in `np.array` before anything is written. Element types (integer against float datasets, casting on assignment) are not modelled: every cell is a real.
- TrajectoryWriter.TrajectoryWriterState.constructor and TrajectoryWriter.TrajectoryWriterState.UpdateVideoFiles: these model the intended writer, whose threads start. As written, both raise `TypeError` at `run_threaded_command(..., args=...)`; `WriterNeverConstructed` and `NewVideoRaisesAsWritten` state that, and the Findings list it.
- TrajectoryWriter.TrajectoryWriterState.Close: requires that no HDF5 write has failed. After a failed write the source's `close` blocks forever in `queue.join`, because the dead thread never calls `task_done`; a call that never returns has no outcome to state.
- TrajectoryWriter: MP4 encoding is the `encode` parameter of `Close`, and the video writer threads and `queue.join` are not modelled; `Close` requires the HDF5 queue to be drained.
- TrajectoryWriter: the `'depth' in video_id` branch of r2d2/misc/trajectory_writer.py:109-113 stops in the debugger and is not modelled.
- Printing (progress lines, the postprocess summary text) is not modelled. The summary's numbers are modelled.
- r2d2/camera_utils/info.py is not part of this model. The camera-type lookups of the r2d2 wrappers and of the timestep processor are parameters. The droid/camera_utils/info.py tables are modelled.
- droid/misc/parameters.py raises at import (lines 9-10). `CameraInfo` takes the hand and static camera ids as the configured constants of lines 19-20.
- The live ZED reader of r2d2/camera_utils/camera_readers/zed_camera.py never returns depth or point clouds, and neither does the model.
- The RealSense device discovery and stream configuration are not modelled, beyond the two resolutions and the 30 fps rate.
- Stages: the trajectory parsers and validators and the SVO-to-MP4 conversion are given as data; their outcome is what the stages read.
- Postprocess: `run_upload` is imported from r2d2/postprocessing/stages.py, which does not define it, so the import fails. `Postprocess.RunStagesIntended` takes the upload stage's outcome as a parameter.
- Postprocess: the `validate_user2id` check and the pyrallis command-line parsing are not modelled.
- OculusController.VRPolicy.Forward: takes `obs_dict['robot_state']['ee_state']` directly, so the `KeyError` that r2d2/controllers/oculus_controller.py:149 and :109-111 raise when `robot_state` or `ee_state` is missing is not modelled.
- OculusController.VRPolicy.constructor: requires non-negative velocity limits and a reorder vector whose entries have magnitude at most its length; every call site passes the defaults, which meet both. Outside them the source does the following, which the model does not promise:
  - an entry of larger magnitude raises `IndexError` inside the constructor (r2d2/controllers/oculus_controller.py:37, through `vec_to_reorder_mat`, whose failure `VecToReorderMat` states), and a constructor here cannot return an error;
  - a negative limit raises nothing: `_limit_velocity` rescales every part of that kind by the negative limit over its norm, which reverses its direction (and a zero part divides by zero); `LimitVelocity` and `LimitVelocitySpec` take non-negative limits for the same reason.
  - an entry of 0 is admitted and, as in the source, leaves its row zero.
- Franka.FrankaRobot.constructor: requires a positive maximum gripper width, which the gripper always reports; the width formula divides by it.
- PolicyWrapper.PolicyWrapperRobomimic.constructor: requires `eval_mode`, the source's constructor assertion.
- TimestepProcessing.TimestepProcesser.constructor: requires one of the four action spaces, the source's constructor assertion.
- EvalLauncher.TempRobotEnv.constructor: requires one of the four action spaces (the source's assertion) and a calibration listed once per id.
- RobotEnvironment.RobotEnv.constructor: requires a norm law and a positive gripper width, for the reasons above.
- Gui.RobotGui.SwapImgOrder: requires both positions inside the camera order. Python's negative indexing and the IndexError of an index past the end are not modelled, because the GUI only swaps positions it has shown.
- Franka: `update_pose` (r2d2/franka/robot.py:79-94) and the server launch and kill (lines 54-70) are not modelled. `get_joint_positions`, `get_ee_pose` and `get_robot_state` are hardware reads, modelled as the sensor fields they return.
- EvalLauncher: `TempRobotEnv.reset`, `update_robot` and `read_cameras` are stubs with no logic. Checkpoint loading, the policy network and the robot server are not modelled.
- GUI: Tk rendering, image resizing, web-browser calls and the camera-feed loops are not modelled. So are the noise page and `set_img`, which only picks the live or the replayed frame to draw. `listen_for_robot_info` runs on a finite sequence of readings, and the key events and page switches it decides are returned rather than dispatched to the handlers. The reset that `CanRobotResetPage.moniter_keys` starts on a thread, and the save or delete that `edit_trajectory` asks of the robot, are modelled only as flags saying which call was made. The texts and the move-robot frequency from r2d2/user_interface/text.py and gui_parameters.py are fields fixed at construction.
- TrajectoryUtils: the loop runs on a finite sequence of ticks, so a run that would go on forever stops when the ticks run out.

## Findings

Each row's as-written member models the line as it stands and exhibits
the discrepancy. The corrected member states the intended behaviour with
its property proved. The rest of the model uses the as-written behaviour
where the line only changes an outcome. It uses the corrected one where the
line would stop the component outright.

| source | as written | input that shows it | evidently intended | confidence | as-written member | corrected member |
|---|---|---|---|---|---|---|
| r2d2/misc/transformations.py:31-35 | `angle_diff` reads its angles in degrees when `degrees` is set but returns `as_euler('xyz')` in radians, and `add_angles` then reads that radian result as degrees | a rotation model about one axis, target (1, 0, 0), source (0, 0, 0), `degrees=True`: adding the difference back gives 2 instead of 1 | return the difference in the unit of the arguments, so that `add_angles(angle_diff(t, s), s)` is the rotation of `t` | not executed | Transformations.AngleDiffDegreesRoundTripFails | Transformations.AngleDiffIntendedRoundTrip |
| r2d2/misc/transformations.py:44-46 | `quat_add(delta, source)` reads the name `target`, which is not bound there | any call, e.g. `quat_add(quat_diff(t, s), s)`: `NameError` | compose `delta` after `source` | not executed | Transformations.QuatAddRoundTripFails | Transformations.QuatAddIntendedRoundTrip |
| r2d2/misc/transformations.py:23-24 | `quat_to_rmat(quat)` reads the unbound name `euler` and passes `degrees` to `from_quat` | any quaternion: `NameError` | convert `quat` to its rotation matrix | not executed | Transformations.QuatToRmat | Transformations.QuatToRmatIntendedRoundTrip |
| r2d2/robot_env.py:81-82 | `read_cameras` passes `image`, `depth` and `pointcloud` keywords to the camera wrapper's `read_cameras`, which takes none | `get_observation` with any camera modality requested: `TypeError` | read the cameras exactly when a modality is requested | not executed | RobotEnvironment.RobotEnv.GetObservation | RobotEnvironment.RobotEnv.GetObservationIntended |
| r2d2/camera_utils/readers/recorded_zed_camera.py:90-92 | the side-by-side branch retrieves into the unbound name `svo_image` | `image=True`, `concatenate_images=True`, any grabbed frame: `NameError` | retrieve into `_sbs_img` and store it under the serial number | not executed | RecordedZed.DataDict | RecordedZed.DataDictIntended |
| r2d2/camera_utils/wrappers/multi_camera_wrapper.py:1-19 | the wrapper gathers the cameras of r2d2/camera_utils/readers/zed_camera.py, whose `ZedCamera` has no `set_reading_parameters` | one connected camera: `AttributeError` while constructing | configure cameras that take reading parameters, as the rest of the wrapper assumes | not executed | MultiCamera.ConstructAsWritten | MultiCamera.Open |
| r2d2/camera_utils/camera_readers/zed_camera.py:62-81 | both mode setters first read `self._current_mode`, which is never assigned (the field is `current_mode`) | a configured camera switched to trajectory mode: `AttributeError` | guard on `current_mode` | not executed | ZedCameraReader.ModeSetterRaisesWhereIntendedRuns | ZedCameraReader.EnterTrajectory |
| r2d2/camera_utils/camera_readers/zed_camera.py:68-109 | the mode is assigned before `_configure_camera`, whose `disable_camera` overwrites it with 'disabled' | a configured camera switched to trajectory mode with the guard corrected: the new camera is open, `is_running` is false, and `disable_camera` never closes it | assign the mode once the new camera is open | not executed | ZedCameraReader.AssignFirstLeavesCameraOpenButDisabled | ZedCameraReader.EnterTrajectory |
| r2d2/misc/trajectory_writer.py:68-70 | `_update_metadata` writes to `self._hdf5_file.attr`, which h5py files do not have | metadata `{'lab': 1.0}`: `AttributeError` | write each entry into `attrs` | not executed | TrajectoryWriter.MetadataLostAsWritten | TrajectoryWriter.AttributesStoreEveryEntry |
| scripts/postprocess.py:174-199 | both stage calls pass `totals=` (and indexing also `scanned_paths=`), which `run_indexing` and `run_processing` do not take | any run with `do_index` or `do_process` set: `TypeError` before the stage starts | call each stage with the keywords it takes, so that it updates the cache | not executed | Postprocess.StageCallsRaise | Postprocess.RunStagesIntended |
| r2d2/misc/trajectory_writer.py:58-60 | `__init__` starts the HDF5 thread with `run_threaded_command(self._write_from_queue, args=(...))`, but r2d2/misc/subprocess_utils.py:11 takes the command alone | any `TrajectoryWriter(filepath)` without metadata: TypeError for the unexpected keyword `args` | start `_write_from_queue` on a thread with those three arguments | not executed | TrajectoryWriter.WriterNeverConstructed | TrajectoryWriter.TrajectoryWriterState.constructor |
| r2d2/misc/trajectory_writer.py:93-98 | the same call starts the thread of each new video, after the image was deleted from `camera_dict` | the first image of camera "cam", key "left": TypeError, queue `cam_left` created empty, the image lost | start the video thread and queue the image | not executed | TrajectoryWriter.FirstFrameLostAsWritten | TrajectoryWriter.EveryImageQueued |
