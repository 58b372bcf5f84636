/** The fixed-rate collection loop `collect_trajectory` of
    r2d2/misc/trajectory_utils.py. The environment, controller and policy are
    abstract: what they return on each pass of the loop, and the clock
    readings, are given as a sequence of `Tick`s. The model runs until the
    loop returns or the ticks run out. */
module TrajectoryUtils {
  import opened Wrappers
  import opened Vectors

  /** What the outside world answers during one pass of the loop. */
  datatype Tick<V, A> = Tick(
    controllerInfo: map<string, bool>,   // `controller.get_info()`
    stepStart: real,                     // `time.time()` readings, in order
    obs: map<string, V>,                 // `env.get_observation()`
    policyStart: real,
    controllerAction: Vec,               // `controller.forward(obs)`
    policyAction: Vec,                   // `policy.forward(obs)`
    sleepStart: real,
    sleepCheck: real,                    // the reading that computes `comp_time`
    controlStart: real,
    stepReply: A,                        // `env.step(action)`
    stepEnd: real)

  /** The `obs_pointer` argument: absent, a dict, or something else. */
  datatype PointerArg<V> = NoPointer | DictPointer(contents: map<string, V>) | NonDict

  datatype Timestamps = Timestamps(stepStart: real, policyStart: real, sleepStart: real,
                                   controlStart: real, stepEnd: real)

  /** One entry of `traj_data['info']`. */
  datatype Info = Info(controller: map<string, bool>, timestamps: Timestamps)

  datatype TrajData<V, A> = TrajData(observations: seq<map<string, V>>, actions: seq<A>, info: seq<Info>)

  /** The objects reset before the loop starts. */
  datatype ResetCall = ResetController | ResetEnv

  /** The loop's result: the trajectory, whether the loop returned (as
      opposed to the ticks running out) and how many ticks it consumed. */
  datatype Run<V, A> = Run(traj: TrajData<V, A>, ended: bool, consumed: nat)

  /** The argument checks at the top of `collect_trajectory`. */
  predicate ArgumentsValid<V>(hasController: bool, hasPolicy: bool, horizon: Option<int>,
                              obsPointer: PointerArg<V>, waitForController: bool)
  {
    (hasController || hasPolicy) && (hasController || horizon.Some?)
    && (waitForController ==> hasController) && !obsPointer.NonDict?
  }

  /** `info['controller']`: the controller's info, or {} without one. */
  function ControllerInfo<V, A>(hasController: bool, t: Tick<V, A>): map<string, bool>
  {
    if hasController then t.controllerInfo else map[]
  }

  /** The action passed to `env.step`: the policy's when there is one. */
  function ChosenAction<V, A>(hasPolicy: bool, t: Tick<V, A>): Vec
  {
    if hasPolicy then t.policyAction else t.controllerAction
  }

  /** The time slept on a pass: what remains of the period 1/hz after the
      time spent since the step started, or nothing. */
  function SleepFor<V, A>(hz: real, t: Tick<V, A>): (s: real)
    requires hz != 0.0
    ensures s >= 0.0
    ensures s > 0.0 <==> 1.0 / hz - (t.sleepCheck - t.stepStart) > 0.0
    ensures s > 0.0 ==> s == 1.0 / hz - (t.sleepCheck - t.stepStart)
  {
    var sleepLeft := 1.0 / hz - (t.sleepCheck - t.stepStart);
    if sleepLeft > 0.0 then sleepLeft else 0.0
  }

  /** A pass that is skipped: waiting for the controller while its movement
      is not enabled. */
  predicate Skipped(waitForController: bool, info: map<string, bool>)
  {
    waitForController && "movement_enabled" in info && !info["movement_enabled"]
  }

  /** Without a horizon, a recorded pass ends the loop when the controller
      asks to save or to delete the episode. */
  predicate AsksToStop(info: map<string, bool>)
  {
    ("save_episode" in info && info["save_episode"])
    || ("save_episode" in info && "delete_episode" in info && info["delete_episode"])
  }

  /** `obs_pointer.update(obs)` applied for each observation in turn. */
  function UpdatedPointer<V, A>(p: map<string, V>, ticks: seq<Tick<V, A>>): map<string, V>
  {
    if ticks == [] then p else UpdatedPointer(p, ticks[..|ticks| - 1]) + ticks[|ticks| - 1].obs
  }

  lemma UpdatedPointerStep<V, A>(p: map<string, V>, ticks: seq<Tick<V, A>>, k: nat)
    requires k < |ticks|
    ensures UpdatedPointer(p, ticks[..k + 1]) == UpdatedPointer(p, ticks[..k]) + ticks[k].obs
  {
    assert ticks[..k + 1][..k] == ticks[..k];
  }

  /** The loop contract shared by the method's postcondition and invariant:
      the recorded passes `picked`, in order, are exactly the passes among the
      first `consumed` that were not skipped, the buffers hold their
      observations, step replies and infos, and the pointer has seen every
      observation. */
  ghost predicate Recorded<V, A>(hasController: bool, hasPolicy: bool, waitForController: bool, hz: real,
                                 ticks: seq<Tick<V, A>>, consumed: nat, picked: seq<nat>,
                                 traj: TrajData<V, A>, sent: seq<Vec>, sleeps: seq<real>)
    requires hz != 0.0
  {
    consumed <= |ticks|
    && |traj.observations| == |picked| && |traj.actions| == |picked| && |traj.info| == |picked|
    && |sent| == |picked|
    && (forall j, l :: 0 <= j < l < |picked| ==> picked[j] < picked[l])
    && (forall j :: 0 <= j < |picked| ==> picked[j] < consumed)
    && (forall j :: 0 <= j < |picked| ==>
          var t := ticks[picked[j]];
          traj.observations[j] == t.obs && traj.actions[j] == t.stepReply && sent[j] == ChosenAction(hasPolicy, t)
          && traj.info[j] == Info(ControllerInfo(hasController, t),
                                  Timestamps(t.stepStart, t.policyStart, t.sleepStart, t.controlStart, t.stepEnd)))
    && (forall k :: 0 <= k < consumed ==> (k in picked <==> !Skipped(waitForController, ControllerInfo(hasController, ticks[k]))))
    && |sleeps| == consumed
    && (forall k :: 0 <= k < consumed ==> sleeps[k] == SleepFor(hz, ticks[k]))
  }

  lemma RecordedStart<V, A>(hasController: bool, hasPolicy: bool, waitForController: bool, hz: real,
                            ticks: seq<Tick<V, A>>)
    requires hz != 0.0
    ensures Recorded(hasController, hasPolicy, waitForController, hz, ticks, 0, [], TrajData([], [], []), [], [])
  {
  }

  /** A skipped pass records nothing but its sleep. */
  lemma RecordedSkip<V, A>(hasController: bool, hasPolicy: bool, waitForController: bool, hz: real,
                           ticks: seq<Tick<V, A>>, k: nat, picked: seq<nat>,
                           traj: TrajData<V, A>, sent: seq<Vec>, sleeps: seq<real>)
    requires hz != 0.0 && k < |ticks|
    requires Recorded(hasController, hasPolicy, waitForController, hz, ticks, k, picked, traj, sent, sleeps)
    requires Skipped(waitForController, ControllerInfo(hasController, ticks[k]))
    ensures Recorded(hasController, hasPolicy, waitForController, hz, ticks, k + 1, picked, traj, sent,
                     sleeps + [SleepFor(hz, ticks[k])])
  {
  }

  /** A recorded pass appends its observation, step reply, info and action. */
  lemma RecordedTake<V, A>(hasController: bool, hasPolicy: bool, waitForController: bool, hz: real,
                           ticks: seq<Tick<V, A>>, k: nat, picked: seq<nat>,
                           traj: TrajData<V, A>, sent: seq<Vec>, sleeps: seq<real>)
    requires hz != 0.0 && k < |ticks|
    requires Recorded(hasController, hasPolicy, waitForController, hz, ticks, k, picked, traj, sent, sleeps)
    requires !Skipped(waitForController, ControllerInfo(hasController, ticks[k]))
    ensures var t := ticks[k];
      Recorded(hasController, hasPolicy, waitForController, hz, ticks, k + 1, picked + [k],
               TrajData(traj.observations + [t.obs], traj.actions + [t.stepReply],
                        traj.info + [Info(ControllerInfo(hasController, t),
                                          Timestamps(t.stepStart, t.policyStart, t.sleepStart, t.controlStart, t.stepEnd))]),
               sent + [ChosenAction(hasPolicy, t)], sleeps + [SleepFor(hz, t)])
  {
    assert k !in picked;
  }

  /** The termination check after a recorded pass: with a horizon, whether
      the step count reached it; without one, whether the controller asks to
      save or delete, reading `save_episode` first and `delete_episode` only
      when needed. A missing key is a `KeyError`. */
  function EndTraj(horizon: Option<int>, numSteps: nat, info: map<string, bool>): (d: Result<bool>)
    ensures horizon.Some? ==> d == Ok(horizon.value == numSteps)
    ensures horizon.None? ==>
      (d.Ok? <==> "save_episode" in info && (info["save_episode"] || "delete_episode" in info))
      && (d.Err? ==> d.error == KeyError)
      && (d.Ok? ==> d.value == AsksToStop(info))
  {
    if horizon.Some? then Ok(horizon.value == numSteps)
    else if "save_episode" !in info then Err(KeyError)
    else if info["save_episode"] then Ok(true)
    else if "delete_episode" !in info then Err(KeyError)
    else Ok(info["delete_episode"])
  }

  /** Without a horizon: every recorded info holds `save_episode`, and only
      the last one, when the loop has ended, asks to stop. */
  predicate StopsOnlyAtEnd(infos: seq<Info>, ended: bool)
  {
    (forall j :: 0 <= j < |infos| ==> "save_episode" in infos[j].controller)
    && (forall j :: 0 <= j < |infos| - 1 ==> !AsksToStop(infos[j].controller))
    && (ended <==> |infos| > 0 && AsksToStop(infos[|infos| - 1].controller))
  }

  lemma StopsOnlyAtEndStep(infos: seq<Info>, info: Info)
    requires StopsOnlyAtEnd(infos, false) && "save_episode" in info.controller
    ensures StopsOnlyAtEnd(infos + [info], AsksToStop(info.controller))
  {
  }

  /** `collect_trajectory`. Besides the result it returns the objects reset
      before the loop, the final `obs_pointer`, the time slept on each pass,
      the actions passed to `env.step`, and (as a ghost) which passes were
      recorded. */
  method CollectTrajectory<V, A>(hasController: bool, hasPolicy: bool, horizon: Option<int>,
                                 obsPointer: PointerArg<V>, waitForController: bool, hz: real,
                                 ticks: seq<Tick<V, A>>)
    returns (r: Result<Run<V, A>>, resets: seq<ResetCall>, pointer: PointerArg<V>,
             sleeps: seq<real>, sent: seq<Vec>, ghost picked: seq<nat>)
    ensures !ArgumentsValid(hasController, hasPolicy, horizon, obsPointer, waitForController) <==>
      r == Err(AssertionError) && resets == []
    ensures ArgumentsValid(hasController, hasPolicy, horizon, obsPointer, waitForController) ==>
      resets == (if hasController then [ResetController] else []) + [ResetEnv]
    ensures hz == 0.0 && |ticks| > 0 && ArgumentsValid(hasController, hasPolicy, horizon, obsPointer, waitForController)
      ==> r == Err(ZeroDivisionError)
    ensures hz != 0.0 && ArgumentsValid(hasController, hasPolicy, horizon, obsPointer, waitForController)
      ==> (r.Err? ==> r == Err(KeyError))
    ensures r.Ok? && hz == 0.0 ==> |ticks| == 0 && r.value == Run(TrajData([], [], []), false, 0)
    ensures r.Ok? && hz != 0.0 ==>
      var run := r.value;
      Recorded(hasController, hasPolicy, waitForController, hz, ticks, run.consumed, picked, run.traj, sent, sleeps)
      && (obsPointer.DictPointer? ==>
            pointer == DictPointer(UpdatedPointer(obsPointer.contents, ticks[..run.consumed])))
      && (!run.ended ==> run.consumed == |ticks|)
      // with a horizon, the loop returns exactly when the step count reaches it
      && (horizon.Some? && run.ended ==> |run.traj.observations| == horizon.value)
      && (horizon.Some? && !run.ended ==> !(1 <= horizon.value <= |run.traj.observations|))
      // without one, exactly when a recorded pass asks to stop
      && (horizon.None? ==> StopsOnlyAtEnd(run.traj.info, run.ended))
  {
    pointer := obsPointer;
    sleeps, sent, picked := [], [], [];
    if !ArgumentsValid(hasController, hasPolicy, horizon, obsPointer, waitForController) {
      return Err(AssertionError), [], pointer, sleeps, sent, picked;
    }
    resets := (if hasController then [ResetController] else []) + [ResetEnv];
    if hz == 0.0 {
      // the first pass updates the pointer, then divides by zero
      if |ticks| > 0 {
        if pointer.DictPointer? {
          pointer := DictPointer(pointer.contents + ticks[0].obs);
        }
        return Err(ZeroDivisionError), resets, pointer, sleeps, sent, picked;
      }
      return Ok(Run(TrajData([], [], []), false, 0)), resets, pointer, sleeps, sent, picked;
    }
    r, pointer, sleeps, sent, picked := CollectLoop(hasController, hasPolicy, horizon, obsPointer, waitForController, hz, ticks);
  }

  /** The loop invariant of `CollectLoop`: `k` passes consumed, the recorded
      ones as `Recorded` says unless a pass has failed, the pointer updated
      with every consumed observation, and the loop ended exactly when the
      horizon or the controller says so. */
  ghost predicate LoopInv<V, A>(hasController: bool, hasPolicy: bool, horizon: Option<int>,
                                obsPointer: PointerArg<V>, waitForController: bool, hz: real,
                                ticks: seq<Tick<V, A>>, k: nat, picked: seq<nat>, traj: TrajData<V, A>,
                                pointer: PointerArg<V>, sent: seq<Vec>, sleeps: seq<real>,
                                ended: bool, failure: Option<PyError>)
    requires hz != 0.0
  {
    k <= |ticks|
    && (failure.None? ==> Recorded(hasController, hasPolicy, waitForController, hz, ticks, k, picked, traj, sent, sleeps))
    && (obsPointer.DictPointer? ==> pointer == DictPointer(UpdatedPointer(obsPointer.contents, ticks[..k])))
    && (!obsPointer.DictPointer? ==> pointer == obsPointer)
    && (horizon.Some? && !ended ==> !(1 <= horizon.value <= |traj.info|))
    && (horizon.Some? && ended ==> |traj.info| == horizon.value)
    && (horizon.None? && failure.None? ==> StopsOnlyAtEnd(traj.info, ended))
    && (failure.Some? ==> failure == Some(KeyError))
  }

  /** The pointer after pass `k` reads its observation. */
  function NextPointer<V, A>(obsPointer: PointerArg<V>, pointer: PointerArg<V>, t: Tick<V, A>): PointerArg<V>
  {
    if obsPointer.DictPointer? && pointer.DictPointer? then DictPointer(pointer.contents + t.obs) else pointer
  }

  /** The info recorded for a pass. */
  function PassInfo<V, A>(hasController: bool, t: Tick<V, A>): Info
  {
    Info(ControllerInfo(hasController, t), Timestamps(t.stepStart, t.policyStart, t.sleepStart, t.controlStart, t.stepEnd))
  }

  lemma LoopStart<V, A>(hasController: bool, hasPolicy: bool, horizon: Option<int>,
                        obsPointer: PointerArg<V>, waitForController: bool, hz: real, ticks: seq<Tick<V, A>>)
    requires hz != 0.0
    ensures LoopInv(hasController, hasPolicy, horizon, obsPointer, waitForController, hz, ticks,
                    0, [], TrajData([], [], []), obsPointer, [], [], false, None)
  {
    RecordedStart(hasController, hasPolicy, waitForController, hz, ticks);
  }

  /** A pass that reads `movement_enabled` when the controller info lacks it. */
  lemma LoopFail<V, A>(hasController: bool, hasPolicy: bool, horizon: Option<int>,
                       obsPointer: PointerArg<V>, waitForController: bool, hz: real, ticks: seq<Tick<V, A>>,
                       k: nat, picked: seq<nat>, traj: TrajData<V, A>, pointer: PointerArg<V>,
                       sent: seq<Vec>, sleeps: seq<real>)
    requires hz != 0.0 && k < |ticks|
    requires LoopInv(hasController, hasPolicy, horizon, obsPointer, waitForController, hz, ticks,
                     k, picked, traj, pointer, sent, sleeps, false, None)
    ensures LoopInv(hasController, hasPolicy, horizon, obsPointer, waitForController, hz, ticks,
                    k + 1, picked, traj, NextPointer(obsPointer, pointer, ticks[k]), sent, sleeps, false, Some(KeyError))
  {
    if obsPointer.DictPointer? {
      UpdatedPointerStep(obsPointer.contents, ticks, k);
    }
  }

  lemma LoopSkip<V, A>(hasController: bool, hasPolicy: bool, horizon: Option<int>,
                       obsPointer: PointerArg<V>, waitForController: bool, hz: real, ticks: seq<Tick<V, A>>,
                       k: nat, picked: seq<nat>, traj: TrajData<V, A>, pointer: PointerArg<V>,
                       sent: seq<Vec>, sleeps: seq<real>)
    requires hz != 0.0 && k < |ticks|
    requires LoopInv(hasController, hasPolicy, horizon, obsPointer, waitForController, hz, ticks,
                     k, picked, traj, pointer, sent, sleeps, false, None)
    requires Skipped(waitForController, ControllerInfo(hasController, ticks[k]))
    ensures LoopInv(hasController, hasPolicy, horizon, obsPointer, waitForController, hz, ticks,
                    k + 1, picked, traj, NextPointer(obsPointer, pointer, ticks[k]), sent,
                    sleeps + [SleepFor(hz, ticks[k])], false, None)
  {
    RecordedSkip(hasController, hasPolicy, waitForController, hz, ticks, k, picked, traj, sent, sleeps);
    if obsPointer.DictPointer? {
      UpdatedPointerStep(obsPointer.contents, ticks, k);
    }
  }

  lemma LoopTake<V, A>(hasController: bool, hasPolicy: bool, horizon: Option<int>,
                       obsPointer: PointerArg<V>, waitForController: bool, hz: real, ticks: seq<Tick<V, A>>,
                       k: nat, picked: seq<nat>, traj: TrajData<V, A>, pointer: PointerArg<V>,
                       sent: seq<Vec>, sleeps: seq<real>)
    requires hz != 0.0 && k < |ticks|
    requires LoopInv(hasController, hasPolicy, horizon, obsPointer, waitForController, hz, ticks,
                     k, picked, traj, pointer, sent, sleeps, false, None)
    requires !Skipped(waitForController, ControllerInfo(hasController, ticks[k]))
    ensures var t := ticks[k];
      var traj' := TrajData(traj.observations + [t.obs], traj.actions + [t.stepReply],
                            traj.info + [PassInfo(hasController, t)]);
      var d := EndTraj(horizon, |traj'.info|, ControllerInfo(hasController, t));
      LoopInv(hasController, hasPolicy, horizon, obsPointer, waitForController, hz, ticks,
              k + 1, picked + [k], traj', NextPointer(obsPointer, pointer, t),
              sent + [ChosenAction(hasPolicy, t)], sleeps + [SleepFor(hz, t)],
              d.Ok? && d.value, if d.Err? then Some(d.error) else None)
  {
    var t := ticks[k];
    RecordedTake(hasController, hasPolicy, waitForController, hz, ticks, k, picked, traj, sent, sleeps);
    if obsPointer.DictPointer? {
      UpdatedPointerStep(obsPointer.contents, ticks, k);
    }
    var info := PassInfo(hasController, t);
    if horizon.None? && "save_episode" in info.controller {
      StopsOnlyAtEndStep(traj.info, info);
    }
  }

  /** One pass of the loop body: read the controller info and the
      observation, update the pointer, choose the action, sleep out the
      period, and unless the pass is skipped, step the environment, record
      the pass and decide whether the loop returns. */
  method Pass<V, A>(hasController: bool, hasPolicy: bool, horizon: Option<int>,
                    obsPointer: PointerArg<V>, waitForController: bool, hz: real, ticks: seq<Tick<V, A>>,
                    k: nat, traj: TrajData<V, A>, pointer: PointerArg<V>, sent: seq<Vec>, sleeps: seq<real>,
                    ghost picked: seq<nat>)
    returns (traj': TrajData<V, A>, pointer': PointerArg<V>, sent': seq<Vec>, sleeps': seq<real>,
             ghost picked': seq<nat>, ended: bool, failure: Option<PyError>)
    requires hz != 0.0 && k < |ticks|
    requires LoopInv(hasController, hasPolicy, horizon, obsPointer, waitForController, hz, ticks,
                     k, picked, traj, pointer, sent, sleeps, false, None)
    ensures LoopInv(hasController, hasPolicy, horizon, obsPointer, waitForController, hz, ticks,
                    k + 1, picked', traj', pointer', sent', sleeps', ended, failure)
  {
    var t := ticks[k];
    var controllerInfo := ControllerInfo(hasController, t);
    pointer' := NextPointer(obsPointer, pointer, t);
    var action := ChosenAction(hasPolicy, t);
    var slept := SleepFor(hz, t);
    traj', sent', sleeps', picked', ended, failure := traj, sent, sleeps, picked, false, None;
    if waitForController && "movement_enabled" !in controllerInfo {
      LoopFail(hasController, hasPolicy, horizon, obsPointer, waitForController, hz, ticks,
               k, picked, traj, pointer, sent, sleeps);
      failure := Some(KeyError);
    } else if Skipped(waitForController, controllerInfo) {
      LoopSkip(hasController, hasPolicy, horizon, obsPointer, waitForController, hz, ticks,
               k, picked, traj, pointer, sent, sleeps);
      sleeps' := sleeps + [slept];
    } else {
      LoopTake(hasController, hasPolicy, horizon, obsPointer, waitForController, hz, ticks,
               k, picked, traj, pointer, sent, sleeps);
      sleeps' := sleeps + [slept];
      sent' := sent + [action];
      var info := PassInfo(hasController, t);
      traj' := TrajData(traj.observations + [t.obs], traj.actions + [t.stepReply], traj.info + [info]);
      picked' := picked + [k];
      var decision := EndTraj(horizon, |traj'.info|, controllerInfo);
      if decision.Err? {
        failure := Some(decision.error);
      } else {
        ended := decision.value;
      }
    }
  }

  /** The `while True` loop of `collect_trajectory`, from the first pass. */
  method CollectLoop<V, A>(hasController: bool, hasPolicy: bool, horizon: Option<int>,
                           obsPointer: PointerArg<V>, waitForController: bool, hz: real,
                           ticks: seq<Tick<V, A>>)
    returns (r: Result<Run<V, A>>, pointer: PointerArg<V>, sleeps: seq<real>, sent: seq<Vec>, ghost picked: seq<nat>)
    requires hz != 0.0
    ensures r.Err? ==> r == Err(KeyError)
    ensures r.Ok? ==>
      Recorded(hasController, hasPolicy, waitForController, hz, ticks, r.value.consumed, picked, r.value.traj, sent, sleeps)
    ensures r.Ok? ==>
      var run := r.value;
      run.consumed <= |ticks|
      && (obsPointer.DictPointer? ==>
            pointer == DictPointer(UpdatedPointer(obsPointer.contents, ticks[..run.consumed])))
      && (!run.ended ==> run.consumed == |ticks|)
      && (horizon.Some? && run.ended ==> |run.traj.observations| == horizon.value)
      && (horizon.Some? && !run.ended ==> !(1 <= horizon.value <= |run.traj.observations|))
      && (horizon.None? ==> StopsOnlyAtEnd(run.traj.info, run.ended))
  {
    pointer := obsPointer;
    sleeps, sent, picked := [], [], [];
    var traj: TrajData<V, A> := TrajData([], [], []);
    var k := 0;
    var ended := false;
    var failure: Option<PyError> := None;
    LoopStart(hasController, hasPolicy, horizon, obsPointer, waitForController, hz, ticks);
    while k < |ticks| && !ended && failure.None?
      invariant LoopInv(hasController, hasPolicy, horizon, obsPointer, waitForController, hz, ticks,
                        k, picked, traj, pointer, sent, sleeps, ended, failure)
      decreases |ticks| - k
    {
      traj, pointer, sent, sleeps, picked, ended, failure :=
        Pass(hasController, hasPolicy, horizon, obsPointer, waitForController, hz, ticks,
             k, traj, pointer, sent, sleeps, picked);
      k := k + 1;
    }
    if failure.Some? {
      return Err(failure.value), pointer, sleeps, sent, picked;
    }
    return Ok(Run(traj, ended, k)), pointer, sleeps, sent, picked;
  }
}
