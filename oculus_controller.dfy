/** The VR teleoperation policy of r2d2/controllers/oculus_controller.py.
    The poller thread is modelled one iteration at a time (`PollOnce`), the
    headset reading is an input of that step, and the action computation is
    split into a pure specification (`Action`) and the method that updates the
    policy's origin anchors (`VRPolicy.CalculateAction`). */
module OculusController {
  import opened Wrappers
  import opened Vectors
  import opened Rotations
  import opened Transformations

  // ---------------------------------------------------------------- reorder matrix

  function IAbs(x: int): nat { if x < 0 then -x else x }

  /** numpy `sign` of an integer, as a float. */
  function Sign(x: int): real { if x > 0 then 1.0 else if x < 0 then -1.0 else 0.0 }

  /** Row i holds sign(v[i]) in column |v[i]| - 1 and zeros elsewhere; a zero
      entry gives a zero row. */
  predicate IsReorderMatrix(v: seq<int>, x: seq<seq<real>>)
  {
    |x| == |v|
    && (forall i :: 0 <= i < |x| ==> |x[i]| == |v|)
    && (forall i, j :: 0 <= i < |v| && 0 <= j < |v| ==>
          x[i][j] == if j == IAbs(v[i]) - 1 then Sign(v[i]) else 0.0)
  }

  /** `vec_to_reorder_mat`: fills an n-by-n zero matrix row by row. A zero
      entry writes sign 0 into the last column (numpy index -1); an entry whose
      magnitude exceeds n indexes past the row and raises `IndexError`. */
  method VecToReorderMat(v: seq<int>) returns (r: Result<seq<seq<real>>>)
    ensures r.Ok? <==> forall i :: 0 <= i < |v| ==> IAbs(v[i]) <= |v|
    ensures r.Err? ==> r.error == IndexError
    ensures r.Ok? ==> IsReorderMatrix(v, r.value)
  {
    var n := |v|;
    var x := seq(n, _ => Zeros(n));
    var i := 0;
    while i < n
      invariant 0 <= i <= n
      invariant |x| == n && forall k :: 0 <= k < n ==> |x[k]| == n
      invariant forall k :: 0 <= k < i ==> IAbs(v[k]) <= n
      invariant forall k, j :: 0 <= k < n && 0 <= j < n ==>
        x[k][j] == if k < i && j == IAbs(v[k]) - 1 then Sign(v[k]) else 0.0
    {
      var ind := IAbs(v[i]) - 1;
      if ind >= n {
        return Err(IndexError);
      }
      var col := if ind < 0 then n + ind else ind;
      x := x[i := x[i][col := Sign(v[i])]];
      i := i + 1;
    }
    return Ok(x);
  }

  /** `np.eye(n)`. */
  function Eye(n: nat): seq<seq<real>>
  {
    seq(n, i => seq(n, j => if i == j then 1.0 else 0.0))
  }

  // ---------------------------------------------------------------- geometry

  /** 4x4 homogeneous matrices of type M: products, inverse, translation
      column and upper-left rotation block, plus the rotation model. */
  datatype Geometry<!R, !M> = Geometry(
    rot: RotationModel<R>,
    mul: (M, M) -> M,                  // `a @ b`
    inverse: M -> M,                   // `np.linalg.inv`
    ofMatrix: seq<seq<real>> -> M,
    translation: M -> Vec3,            // `x[:3, 3]`
    rotationBlock: M -> Mat3)          // `x[:3, :3]`

  /** The gains and limits fixed at construction. */
  datatype Config = Config(
    maxLinVel: real, maxRotVel: real, maxGripperVel: real,
    spatialCoeff: real,
    posActionGain: real, rotActionGain: real, gripperActionGain: real)

  /** The constructor's default arguments. */
  function DefaultConfig(): Config
  {
    Config(1.0, 1.0, 1.0, 1.0, 5.0, 5.0, 5.0)
  }

  function DefaultReorder(): seq<int> { [-2, -1, -3, 4] }

  const NumWaitSec: real := 5.0

  /** A position and orientation: the controller or robot origin. */
  datatype Anchor = Anchor(pos: Vec3, quat: Quat)

  /** One headset reading's buttons. */
  datatype ButtonReading = ButtonReading(a: bool, b: bool, rg: bool, rj: bool, rightTrig: real)

  // ---------------------------------------------------------------- action specification

  /** `_limit_velocity`: each part is rescaled independently to its bound. */
  function LimitVelocity(norm: Vec -> real, c: Config, p: Parts): (r: Parts)
    requires 0.0 <= c.maxLinVel && 0.0 <= c.maxRotVel && 0.0 <= c.maxGripperVel
    ensures |r.lin| == |p.lin| && |r.rot| == |p.rot| && |r.grip| == |p.grip|
  {
    Parts(LimitNorm(norm, p.lin, c.maxLinVel), LimitNorm(norm, p.rot, c.maxRotVel),
          LimitNorm(norm, p.grip, c.maxGripperVel))
  }

  /** Each part is changed only when its norm exceeds its bound, and then
      ends with norm equal to that bound, as a positive multiple of itself
      when the bound is positive. */
  lemma LimitVelocitySpec(norm: Vec -> real, c: Config, p: Parts)
    requires IsNorm(norm)
    requires 0.0 <= c.maxLinVel && 0.0 <= c.maxRotVel && 0.0 <= c.maxGripperVel
    ensures var r := LimitVelocity(norm, c, p);
      norm(r.lin) <= c.maxLinVel && norm(r.rot) <= c.maxRotVel && norm(r.grip) <= c.maxGripperVel
      && (norm(p.lin) <= c.maxLinVel ==> r.lin == p.lin)
      && (norm(p.rot) <= c.maxRotVel ==> r.rot == p.rot)
      && (norm(p.grip) <= c.maxGripperVel ==> r.grip == p.grip)
      && (norm(p.lin) > c.maxLinVel ==> norm(r.lin) == c.maxLinVel)
      && (norm(p.rot) > c.maxRotVel ==> norm(r.rot) == c.maxRotVel)
      && (norm(p.grip) > c.maxGripperVel ==> norm(r.grip) == c.maxGripperVel)
      && (norm(p.lin) > c.maxLinVel > 0.0 ==> exists k: real :: 0.0 < k < 1.0 && r.lin == Scale(p.lin, k))
      && (norm(p.rot) > c.maxRotVel > 0.0 ==> exists k: real :: 0.0 < k < 1.0 && r.rot == Scale(p.rot, k))
      && (norm(p.grip) > c.maxGripperVel > 0.0 ==> exists k: real :: 0.0 < k < 1.0 && r.grip == Scale(p.grip, k))
  {
    LimitNormSpec(norm, p.lin, c.maxLinVel);
    LimitNormSpec(norm, p.rot, c.maxRotVel);
    LimitNormSpec(norm, p.grip, c.maxGripperVel);
  }

  /** The three parts of an action: linear, rotational and gripper. */
  datatype Parts = Parts(lin: Vec, rot: Vec, grip: Vec)

  /** The gained position, Euler and gripper actions before limiting: the
      controller's motion relative to its origin minus the robot's motion
      relative to its origin. */
  function GainedAction<R>(m: RotationModel<R>, c: Config, vr: Anchor, trig: real,
                           robot: Anchor, robotGrip: real, vrOrigin: Anchor, robotOrigin: Anchor): Parts
  {
    var posAction := Sub(Sub(vr.pos, vrOrigin.pos), Sub(robot.pos, robotOrigin.pos));
    var robotQuatOffset := QuatDiff(m, robot.quat, robotOrigin.quat);
    var targetQuatOffset := QuatDiff(m, vr.quat, vrOrigin.quat);
    var eulerAction := QuatToEuler(m, QuatDiff(m, targetQuatOffset, robotQuatOffset), false);
    Parts(Scale(posAction, c.posActionGain), Scale(eulerAction, c.rotActionGain),
          [(trig - robotGrip) * c.gripperActionGain])
  }

  /** The action `_calculate_action` returns once the origins are fixed. */
  function Action<R>(m: RotationModel<R>, norm: Vec -> real, c: Config, vr: Anchor, trig: real,
                     robot: Anchor, robotGrip: real, vrOrigin: Anchor, robotOrigin: Anchor): Vec
    requires 0.0 <= c.maxLinVel && 0.0 <= c.maxRotVel && 0.0 <= c.maxGripperVel
  {
    var l := LimitVelocity(norm, c, GainedAction(m, c, vr, trig, robot, robotGrip, vrOrigin, robotOrigin));
    ClipVec(l.lin + l.rot + l.grip, -1.0, 1.0)
  }

  /** The action has 7 entries, all in [-1, 1]. */
  lemma ActionShape<R>(m: RotationModel<R>, norm: Vec -> real, c: Config, vr: Anchor, trig: real,
                       robot: Anchor, robotGrip: real, vrOrigin: Anchor, robotOrigin: Anchor)
    requires 0.0 <= c.maxLinVel && 0.0 <= c.maxRotVel && 0.0 <= c.maxGripperVel
    ensures |Action(m, norm, c, vr, trig, robot, robotGrip, vrOrigin, robotOrigin)| == 7
    ensures InRange(Action(m, norm, c, vr, trig, robot, robotGrip, vrOrigin, robotOrigin), -1.0, 1.0)
  {
    var l := LimitVelocity(norm, c, GainedAction(m, c, vr, trig, robot, robotGrip, vrOrigin, robotOrigin));
    ClipVecInRange(l.lin + l.rot + l.grip, -1.0, 1.0);
  }

  /** The gripper component before limiting is (trigger - robot gripper) x gain. */
  lemma GripperComponent<R>(m: RotationModel<R>, c: Config, vr: Anchor, trig: real,
                            robot: Anchor, robotGrip: real, vrOrigin: Anchor, robotOrigin: Anchor)
    ensures GainedAction(m, c, vr, trig, robot, robotGrip, vrOrigin, robotOrigin).grip
         == [(trig - robotGrip) * c.gripperActionGain]
  {
    var g := GainedAction(m, c, vr, trig, robot, robotGrip, vrOrigin, robotOrigin);
    assert |g.grip| == 1 && g.grip[0] == (trig - robotGrip) * c.gripperActionGain;
  }

  lemma NormZero(norm: Vec -> real, n: nat)
    requires IsNorm(norm)
    ensures norm(Zeros(n)) == 0.0
  {
    assert Zeros(n) == Scale(Zeros(n), 0.0);
    NormScale(norm, Zeros(n), 0.0);
  }

  lemma {:induction false} SubSelf(v: Vec)
    ensures Sub(v, v) == Zeros(|v|)
  {
  }

  /** A zero gained arm part stays zero through limiting and clipping. */
  lemma ZeroArmPartsStayZero<R>(m: RotationModel<R>, norm: Vec -> real, c: Config,
                                vr: Anchor, trig: real, robot: Anchor, robotGrip: real, vrOrigin: Anchor, robotOrigin: Anchor)
    requires 0.0 <= c.maxLinVel && 0.0 <= c.maxRotVel && 0.0 <= c.maxGripperVel
    requires IsNorm(norm)
    ensures GainedAction(m, c, vr, trig, robot, robotGrip, vrOrigin, robotOrigin).lin == Zeros(3) ==>
      Action(m, norm, c, vr, trig, robot, robotGrip, vrOrigin, robotOrigin)[..3] == [0.0, 0.0, 0.0]
    ensures GainedAction(m, c, vr, trig, robot, robotGrip, vrOrigin, robotOrigin).rot == Zeros(3) ==>
      Action(m, norm, c, vr, trig, robot, robotGrip, vrOrigin, robotOrigin)[3..6] == [0.0, 0.0, 0.0]
  {
    var g := GainedAction(m, c, vr, trig, robot, robotGrip, vrOrigin, robotOrigin);
    NormZero(norm, 3);
    var l := LimitVelocity(norm, c, g);
    var a := Action(m, norm, c, vr, trig, robot, robotGrip, vrOrigin, robotOrigin);
    assert a == ClipVec(l.lin + l.rot + l.grip, -1.0, 1.0);
    assert |g.lin| == 3 && |g.rot| == 3;
  }

  /** On the call that re-anchors the origins (both origins equal to the
      current readings) the positional action is exactly zero. */
  lemma ReanchoredPositionIsStill<R>(m: RotationModel<R>, norm: Vec -> real, c: Config,
                                     vr: Anchor, trig: real, robot: Anchor, robotGrip: real)
    requires 0.0 <= c.maxLinVel && 0.0 <= c.maxRotVel && 0.0 <= c.maxGripperVel
    requires IsNorm(norm)
    ensures Action(m, norm, c, vr, trig, robot, robotGrip, vr, robot)[..3] == [0.0, 0.0, 0.0]
  {
    var g := GainedAction(m, c, vr, trig, robot, robotGrip, vr, robot);
    SubSelf(vr.pos);
    SubSelf(robot.pos);
    assert Sub(Zeros(3), Zeros(3)) == Zeros(3);
    assert g.lin == Zeros(3);
    ZeroArmPartsStayZero(m, norm, c, vr, trig, robot, robotGrip, vr, robot);
  }

  /** Under the rotation laws the rotational action of that call is zero too,
      so the whole arm part of the action is zero. */
  lemma ReanchoredRotationIsStill<R(!new)>(m: RotationModel<R>, norm: Vec -> real, c: Config,
                                          vr: Anchor, trig: real, robot: Anchor, robotGrip: real)
    requires 0.0 <= c.maxLinVel && 0.0 <= c.maxRotVel && 0.0 <= c.maxGripperVel
    requires IsNorm(norm) && Lawful(m)
    ensures Action(m, norm, c, vr, trig, robot, robotGrip, vr, robot)[3..6] == [0.0, 0.0, 0.0]
  {
    QuatDiffOfSelfDiffs(m, vr.quat, robot.quat);
    RotationOfSelfDiffsIsZero(m, c, vr, trig, robot, robotGrip);
    ZeroArmPartsStayZero(m, norm, c, vr, trig, robot, robotGrip, vr, robot);
  }

  lemma RotationOfSelfDiffsIsZero<R>(m: RotationModel<R>, c: Config, vr: Anchor, trig: real, robot: Anchor, robotGrip: real)
    requires QuatToEuler(m, QuatDiff(m, QuatDiff(m, vr.quat, vr.quat), QuatDiff(m, robot.quat, robot.quat)), false)
          == [0.0, 0.0, 0.0]
    ensures GainedAction(m, c, vr, trig, robot, robotGrip, vr, robot).rot == Zeros(3)
  {
  }

  // ---------------------------------------------------------------- the policy object

  class VRPolicy<R, M> {
    const geo: Geometry<R, M>
    const norm: Vec -> real
    const cfg: Config
    const controllerId: string
    const globalToEnv: M

    // `_state`
    var poses: map<string, M>
    var buttons: Option<ButtonReading>    // None: the reset value {A: False, B: False}
    var movementEnabled: bool
    var controllerOn: bool

    var resetOrientation: bool
    var resetOrigin: bool
    var vrToGlobal: M
    var robotOrigin: Option<Anchor>       // None: {'pos': None, 'quat': None}
    var vrOrigin: Option<Anchor>
    var lastReadTime: real                // the poller's `last_read_time`

    ghost predicate Valid()
      reads this
    {
      IsNorm(norm)
      && 0.0 <= cfg.maxLinVel && 0.0 <= cfg.maxRotVel && 0.0 <= cfg.maxGripperVel
      && (poses != map[] ==> buttons.Some?)
      && (!resetOrigin ==> robotOrigin.Some? && vrOrigin.Some?)
    }

    /** Construction with a reorder vector that indexes its own columns;
        the poller starts its clock at `startTime`. */
    constructor (rightController: bool, cfg: Config, rmatReorder: seq<int>,
                 geo: Geometry<R, M>, norm: Vec -> real, startTime: real)
      requires IsNorm(norm)
      requires 0.0 <= cfg.maxLinVel && 0.0 <= cfg.maxRotVel && 0.0 <= cfg.maxGripperVel
      requires forall i :: 0 <= i < |rmatReorder| ==> IAbs(rmatReorder[i]) <= |rmatReorder|
      ensures Valid()
      ensures this.geo == geo && this.norm == norm && this.cfg == cfg
      ensures controllerId == (if rightController then "r" else "l")
      ensures exists x :: IsReorderMatrix(rmatReorder, x) && globalToEnv == geo.ofMatrix(x)
      ensures vrToGlobal == geo.ofMatrix(Eye(4))
      ensures robotOrigin == None && vrOrigin == None
      ensures poses == map[] && buttons == None && !movementEnabled && controllerOn
      ensures resetOrientation && resetOrigin
      ensures lastReadTime == startTime
    {
      var x := VecToReorderMat(rmatReorder);
      this.geo := geo;
      this.norm := norm;
      this.cfg := cfg;
      controllerId := if rightController then "r" else "l";
      globalToEnv := geo.ofMatrix(x.value);
      vrToGlobal := geo.ofMatrix(Eye(4));
      robotOrigin := None;
      vrOrigin := None;
      lastReadTime := startTime;
      poses := map[];
      buttons := None;
      movementEnabled := false;
      controllerOn := true;
      resetOrientation := true;
      resetOrigin := true;
    }

    /** `reset_state`. */
    method ResetState()
      modifies this`poses, this`buttons, this`movementEnabled, this`controllerOn,
               this`resetOrientation, this`resetOrigin
      requires Valid()
      ensures Valid()
      ensures poses == map[] && buttons == None && !movementEnabled && controllerOn
      ensures resetOrientation && resetOrigin
      ensures GetInfo()["success"] == false && GetInfo()["failure"] == false
    {
      poses := map[];
      buttons := None;
      movementEnabled := false;
      controllerOn := true;
      resetOrientation := true;
      resetOrigin := true;
    }

    /** One iteration of the poller `_update_internal_state` after its sleep:
        `now` is the time before the read, `poses`/`reading` what the headset
        returned and `readDone` the time after it. Returns `KeyError` when the
        orientation is to be re-captured but the controller is absent from
        the poses. */
    method PollOnce(now: real, newPoses: map<string, M>, reading: ButtonReading, readDone: real)
      returns (r: Result<()>)
      modifies this`poses, this`buttons, this`movementEnabled, this`controllerOn,
               this`resetOrientation, this`resetOrigin, this`vrToGlobal, this`lastReadTime
      requires Valid()
      ensures Valid()
      // an empty reading only refreshes `controller_on`
      ensures newPoses == map[] ==>
        r.Ok? && controllerOn == (now - old(lastReadTime) < NumWaitSec)
        && poses == old(poses) && buttons == old(buttons) && movementEnabled == old(movementEnabled)
        && resetOrientation == old(resetOrientation) && resetOrigin == old(resetOrigin)
        && vrToGlobal == old(vrToGlobal) && lastReadTime == old(lastReadTime)
      ensures newPoses != map[] ==>
        poses == newPoses && buttons == Some(reading) && movementEnabled == reading.rg
        && controllerOn && lastReadTime == readDone
        && resetOrigin == (old(resetOrigin) || !reading.rg)
        && var recapture := (old(resetOrientation) || reading.rj) && !reading.rg;
           (recapture && controllerId !in newPoses ==>
              r == Err(KeyError) && resetOrientation && vrToGlobal == old(vrToGlobal))
           && (recapture && controllerId in newPoses ==>
              r.Ok? && resetOrientation == !reading.rj && vrToGlobal == geo.inverse(newPoses[controllerId]))
           && (!recapture ==> r.Ok? && !resetOrientation && vrToGlobal == old(vrToGlobal))
      // the frame is re-captured only with the grip released, from the current pose
      ensures vrToGlobal != old(vrToGlobal) ==>
        !movementEnabled && controllerId in poses && vrToGlobal == geo.inverse(poses[controllerId])
      // a completed non-empty poll with RG or RJ pressed leaves no pending re-capture
      ensures newPoses != map[] && r.Ok? && (reading.rg || reading.rj) ==> !resetOrientation
      // with the grip released the origin will be re-anchored
      ensures newPoses != map[] && !reading.rg ==> resetOrigin
    {
      var timeSinceRead := now - lastReadTime;
      controllerOn := timeSinceRead < NumWaitSec;
      if newPoses == map[] {
        return Ok(());
      }
      r := TakeReading(newPoses, reading, readDone);
    }

    /** The part of a poll that follows a non-empty reading: store it, update
        the flags and re-capture the forward frame when due. */
    method TakeReading(newPoses: map<string, M>, reading: ButtonReading, readDone: real)
      returns (r: Result<()>)
      modifies this`poses, this`buttons, this`movementEnabled, this`controllerOn,
               this`resetOrientation, this`resetOrigin, this`vrToGlobal, this`lastReadTime
      requires Valid() && newPoses != map[]
      ensures Valid()
      ensures poses == newPoses && buttons == Some(reading) && movementEnabled == reading.rg
        && controllerOn && lastReadTime == readDone
        && resetOrigin == (old(resetOrigin) || !reading.rg)
      ensures var recapture := (old(resetOrientation) || reading.rj) && !reading.rg;
        (recapture && controllerId !in newPoses ==>
           r == Err(KeyError) && resetOrientation && vrToGlobal == old(vrToGlobal))
        && (recapture && controllerId in newPoses ==>
           r.Ok? && resetOrientation == !reading.rj && vrToGlobal == geo.inverse(newPoses[controllerId]))
        && (!recapture ==> r.Ok? && !resetOrientation && vrToGlobal == old(vrToGlobal))
    {
      poses := newPoses;
      buttons := Some(reading);
      movementEnabled := reading.rg;
      controllerOn := true;
      lastReadTime := readDone;
      resetOrientation := (resetOrientation || reading.rj) && !movementEnabled;
      if !movementEnabled {
        resetOrigin := true;
      }
      if resetOrientation {
        if controllerId !in poses {
          return Err(KeyError);
        }
        var rotMat := poses[controllerId];
        if reading.rj {
          resetOrientation := false;
        }
        vrToGlobal := geo.inverse(rotMat);
      }
      return Ok(());
    }

    /** `_process_reading`: the controller pose mapped into the environment
        frame, as a scaled position and a quaternion. */
    function ProcessReading(): (r: Result<Anchor>)
      reads this
      ensures r.Ok? <==> controllerId in poses
    {
      if controllerId !in poses then Err(KeyError)
      else
        var x := geo.mul(geo.mul(globalToEnv, vrToGlobal), poses[controllerId]);
        Ok(Anchor(Scale(geo.translation(x), cfg.spatialCoeff), RmatToQuat(geo.rot, geo.rotationBlock(x))))
    }

    /** `_calculate_action` on the robot's `ee_state` (position, Euler angles,
        gripper). The origins are re-anchored first when `reset_origin` is set. */
    method CalculateAction(eeState: Vec) returns (r: Result<Vec>)
      modifies this`robotOrigin, this`vrOrigin, this`resetOrigin
      requires Valid() && buttons.Some?
      ensures Valid()
      ensures ProcessReading().Err? ==> r == Err(KeyError) && unchanged(this)
      ensures ProcessReading().Ok? && |eeState| < 6 ==> r == Err(ValueError) && unchanged(this)
      ensures ProcessReading().Ok? && |eeState| == 6 ==> r == Err(IndexError) && unchanged(this)
      ensures ProcessReading().Ok? && |eeState| >= 7 ==>
        var vr := ProcessReading().value;
        var robot := Anchor(eeState[..3], EulerToQuat(geo.rot, eeState[3..6], false));
        !resetOrigin
        && (old(resetOrigin) ==> robotOrigin == Some(robot) && vrOrigin == Some(vr))
        && (!old(resetOrigin) ==> robotOrigin == old(robotOrigin) && vrOrigin == old(vrOrigin))
        && r == Ok(Action(geo.rot, norm, cfg, vr, buttons.value.rightTrig, robot, eeState[6],
                          vrOrigin.value, robotOrigin.value))
        && |r.value| == 7 && InRange(r.value, -1.0, 1.0)
    {
      var reading := ProcessReading();
      if reading.Err? {
        return Err(KeyError);
      }
      var vr := reading.value;
      var vrGripper := buttons.value.rightTrig;
      if |eeState| < 6 {
        return Err(ValueError);
      }
      var robotPos: Vec3 := eeState[..3];
      var robotQuat := EulerToQuat(geo.rot, eeState[3..6], false);
      if |eeState| < 7 {
        return Err(IndexError);
      }
      var robotGripper := eeState[6];
      if resetOrigin {
        robotOrigin := Some(Anchor(robotPos, robotQuat));
        vrOrigin := Some(vr);
        resetOrigin := false;
      }
      var robot := Anchor(robotPos, robotQuat);
      var g := GainedAction(geo.rot, cfg, vr, vrGripper, robot, robotGripper, vrOrigin.value, robotOrigin.value);
      var l := LimitVelocity(norm, cfg, g);
      ActionShape(geo.rot, norm, cfg, vr, vrGripper, robot, robotGripper, vrOrigin.value, robotOrigin.value);
      return Ok(ClipVec(l.lin + l.rot + l.grip, -1.0, 1.0));
    }

    /** `get_info`. */
    function GetInfo(): (info: map<string, bool>)
      reads this
      ensures info.Keys == {"success", "failure", "movement_enabled", "controller_on"}
      ensures info["success"] == (buttons.Some? && buttons.value.a)
      ensures info["failure"] == (buttons.Some? && buttons.value.b)
      ensures info["movement_enabled"] == movementEnabled
      ensures info["controller_on"] == controllerOn
    {
      map["success" := buttons.Some? && buttons.value.a,
          "failure" := buttons.Some? && buttons.value.b,
          "movement_enabled" := movementEnabled,
          "controller_on" := controllerOn]
    }

    /** `forward`: seven zeros until a pose has arrived, otherwise the
        calculated action. */
    method Forward(eeState: Vec) returns (r: Result<Vec>)
      modifies this`robotOrigin, this`vrOrigin, this`resetOrigin
      requires Valid()
      ensures Valid()
      ensures old(poses) == map[] ==> r == Ok(Zeros(7)) && unchanged(this)
      ensures old(poses) != map[] ==> buttons.Some?
      ensures old(poses) != map[] && ProcessReading().Err? ==> r == Err(KeyError) && unchanged(this)
      ensures old(poses) != map[] && ProcessReading().Ok? && |eeState| < 6 ==> r == Err(ValueError) && unchanged(this)
      ensures old(poses) != map[] && ProcessReading().Ok? && |eeState| == 6 ==> r == Err(IndexError) && unchanged(this)
      ensures old(poses) != map[] && ProcessReading().Ok? && |eeState| >= 7 ==>
        var vr := ProcessReading().value;
        var robot := Anchor(eeState[..3], EulerToQuat(geo.rot, eeState[3..6], false));
        !resetOrigin
        && (old(resetOrigin) ==> robotOrigin == Some(robot) && vrOrigin == Some(vr))
        && (!old(resetOrigin) ==> robotOrigin == old(robotOrigin) && vrOrigin == old(vrOrigin))
        && r == Ok(Action(geo.rot, norm, cfg, vr, buttons.value.rightTrig, robot, eeState[6],
                          vrOrigin.value, robotOrigin.value))
      ensures old(poses) != map[] && r.Ok? ==> |r.value| == 7 && InRange(r.value, -1.0, 1.0)
    {
      if poses == map[] {
        return Ok(Zeros(7));
      }
      r := CalculateAction(eeState);
    }
  }
}
