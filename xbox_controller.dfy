/** The Xbox gamepad controller of r2d2/controllers/xbox_controller.py: a
    dead-zoned pose action read from the sticks and a gripper toggle latched
    on button 0. The gamepad is an input: each call receives the axis and
    button readings `pygame` would return at that moment. */
module XboxControl {
  import opened Vectors

  /** One snapshot of the gamepad: `get_axis(i)` and `get_button(i)`. */
  datatype Reading = Reading(axis: nat -> real, button: nat -> bool)

  /** The dead zone: stick readings smaller than this count as zero. */
  const Threshold: real := 0.1

  /** The gripper toggle state: whether the gripper is closed and whether
      the latch is armed (the button has been released since the last
      toggle). */
  datatype Latch = Latch(closed: bool, armed: bool)

  /** `_update_gripper_state`: a press while armed toggles and disarms; a
      release re-arms. */
  function GripperStep(l: Latch, pressed: bool): (r: Latch)
    ensures pressed && l.armed ==> r == Latch(!l.closed, false)
    ensures pressed && !l.armed ==> r == l
    ensures !pressed ==> r == Latch(l.closed, true)
  {
    var afterPress := if pressed && l.armed then Latch(!l.closed, false) else l;
    if !pressed then Latch(afterPress.closed, true) else afterPress
  }

  /** The latch after a sequence of button readings, one per `get_action`. */
  function GripperRun(l: Latch, presses: seq<bool>): Latch
    decreases |presses|
  {
    if presses == [] then l else GripperRun(GripperStep(l, presses[0]), presses[1..])
  }

  lemma {:induction false} GripperRunAppend(l: Latch, a: seq<bool>, b: seq<bool>)
    ensures GripperRun(l, a + b) == GripperRun(GripperRun(l, a), b)
    decreases |a|
  {
    if a != [] {
      assert (a + b)[1..] == a[1..] + b;
      GripperRunAppend(GripperStep(l, a[0]), a[1..], b);
    } else {
      assert a + b == b;
    }
  }

  function Held(n: nat): (s: seq<bool>)
    ensures |s| == n && forall i :: 0 <= i < n ==> s[i]
  {
    seq(n, i => true)
  }

  /** Holding the button down leaves a disarmed latch as it is. */
  lemma {:induction false} HoldingChangesNothing(closed: bool, n: nat)
    ensures GripperRun(Latch(closed, false), Held(n)) == Latch(closed, false)
  {
    if n > 0 {
      assert Held(n)[1..] == Held(n - 1);
      HoldingChangesNothing(closed, n - 1);
    }
  }

  /** Pressing the button, holding it for any number of further readings and
      releasing it toggles the gripper exactly once and re-arms the latch. */
  lemma PressHoldReleaseTogglesOnce(closed: bool, n: nat)
    ensures GripperRun(Latch(closed, true), [true] + Held(n) + [false]) == Latch(!closed, true)
  {
    GripperRunAppend(Latch(closed, true), [true] + Held(n), [false]);
    GripperRunAppend(Latch(closed, true), [true], Held(n));
    HoldingChangesNothing(!closed, n);
  }

  /** numpy's `a[:n]` on a sequence: negative `n` counts from the end. */
  function SliceTo<T>(s: seq<T>, n: int): (r: seq<T>)
    ensures n >= 0 ==> r == s[..if n <= |s| then n else |s|]
    ensures n < 0 ==> r == s[..if -n <= |s| then |s| + n else 0]
  {
    if n >= 0 then s[..if n <= |s| then n else |s|]
    else s[..if -n <= |s| then |s| + n else 0]
  }

  /** `pose_action[np.abs(pose_action) < threshold] = 0.` */
  function DeadZone(v: Vec): (r: Vec)
    ensures |r| == |v|
    ensures forall i :: 0 <= i < |v| ==> (Abs(v[i]) < Threshold ==> r[i] == 0.0)
    ensures forall i :: 0 <= i < |v| ==> (Abs(v[i]) >= Threshold ==> r[i] == v[i])
  {
    seq(|v|, i requires 0 <= i < |v| => if Abs(v[i]) < Threshold then 0.0 else v[i])
  }

  function ButtonValue(b: bool): real { if b then 1.0 else 0.0 }

  /** `[x, y, z, roll, pitch, yaw]` as read from the sticks, bumpers and
      triggers, before truncation and dead zone. */
  function RawPose(g: Reading): (p: Vec)
    ensures |p| == 6
    ensures p[2] == (g.axis(5) - g.axis(2)) / 2.0
    ensures p[3] == ButtonValue(g.button(4)) - ButtonValue(g.button(5))
    ensures p[3] in {-1.0, 0.0, 1.0}
  {
    [-g.axis(1), -g.axis(0), (g.axis(5) - g.axis(2)) / 2.0,
     ButtonValue(g.button(4)) - ButtonValue(g.button(5)), -g.axis(4), g.axis(3)]
  }

  /** The gripper entry of the action: 1 when closed, -1 when open. */
  function GripperAction(closed: bool): (a: real)
    ensures a == 1.0 <==> closed
    ensures a == -1.0 <==> !closed
  {
    (if closed then 1.0 else 0.0) * 2.0 - 1.0
  }

  class XboxController {
    /** `env._DoF`, read once at construction. */
    const dof: int
    var gripperClosed: bool
    var buttonResetted: bool

    function State(): Latch
      reads this
    {
      Latch(gripperClosed, buttonResetted)
    }

    constructor(dof: int)
      ensures this.dof == dof
      ensures State() == Latch(false, true)
    {
      this.dof := dof;
      gripperClosed := false;
      buttonResetted := true;
    }

    method UpdateGripperState(toggleGripper: bool)
      modifies this
      ensures State() == GripperStep(old(State()), toggleGripper)
    {
      if toggleGripper && buttonResetted {
        gripperClosed := !gripperClosed;
        buttonResetted := false;
      }
      if !toggleGripper {
        buttonResetted := true;
      }
    }

    /** `get_action`: the dead-zoned pose truncated to `DoF` entries, then
        the gripper entry after button 0 has updated the latch. */
    method GetAction(g: Reading) returns (action: Vec)
      modifies this
      ensures State() == GripperStep(old(State()), g.button(0))
      ensures action == DeadZone(SliceTo(RawPose(g), dof)) + [GripperAction(gripperClosed)]
      ensures 0 <= dof <= 6 ==> |action| == dof + 1
      ensures action[|action| - 1] == (if gripperClosed then 1.0 else -1.0)
    {
      var poseAction := DeadZone(SliceTo(RawPose(g), dof));
      UpdateGripperState(g.button(0));
      action := poseAction + [GripperAction(gripperClosed)];
    }

    /** `get_info`: the reset, save and delete buttons; the reset button
        opens the gripper and re-arms the latch. */
    method GetInfo(g: Reading) returns (info: map<string, bool>)
      modifies this
      ensures info == map["reset_episode" := g.button(15), "save_episode" := g.button(11),
                          "delete_episode" := g.button(16)]
      ensures g.button(15) ==> State() == Latch(false, true)
      ensures !g.button(15) ==> State() == old(State())
    {
      var resetEpisode := g.button(15);
      var saveEpisode := g.button(11);
      var deleteEpisode := g.button(16);
      if resetEpisode {
        gripperClosed := false;
        buttonResetted := true;
      }
      info := map["reset_episode" := resetEpisode, "save_episode" := saveEpisode,
                  "delete_episode" := deleteEpisode];
    }
  }
}
