/** `TimestepProcesser` of r2d2/training/processing/timestep_processing.py:
    the flattening of one recorded timestep into a low-dimensional state
    vector, per-camera-type high-dimensional data and an action vector. All
    key orders come from sorting the dict keys; a camera's entries are the
    ones whose id contains its serial number. */
module TimestepProcessing {
  import opened Wrappers
  import opened Vectors
  import opened PyStrings

  /** A numeric value of a timestep dict: a number or a flat array. */
  datatype Entry = Scalar(x: real) | Array(v: Vec)

  /** `np.array(e).flatten()`. */
  function Flatten(e: Entry): (r: Vec)
    ensures e.Scalar? ==> r == [e.x]
    ensures e.Array? ==> r == e.v
  {
    match e
    case Scalar(x) => [x]
    case Array(v) => v
  }

  const ActionSpaces: seq<string> := ["cartesian_position", "joint_position", "cartesian_velocity", "joint_velocity"]
  const ObsTypes: seq<string> := ["image", "depth", "pointcloud"]

  /** `gripper_key`: velocity for the velocity action spaces. */
  function GripperKey(actionSpace: string): (k: string)
    ensures k == "gripper_velocity" <==> Contains(actionSpace, "velocity")
    ensures k == "gripper_position" <==> !Contains(actionSpace, "velocity")
  {
    if Contains(actionSpace, "velocity") then "gripper_velocity" else "gripper_position"
  }

  /** The parts of `timestep['observation']` that `forward` reads; an obs
      type absent from `highDim` reads as `{}`. */
  datatype Observation<T, D> = Observation(
    cameraType: map<string, T>,
    robotState: map<string, Entry>,
    cameraExtrinsics: map<string, Vec>,
    highDim: map<string, map<string, D>>)

  datatype Timestep<T, D> = Timestep(observation: Observation<T, D>, action: map<string, Entry>)

  /** `processed_timestep`: the low-level state, the camera data by obs type
      and camera type, and the action unless it is ignored. */
  datatype Processed<D> = Processed(state: Vec, camera: map<string, map<string, seq<D>>>, action: Option<Vec>)

  // ---------------------------------------------------------------- camera types

  /** `{k: camera_type_to_string_dict[v] for k, v in camera_type.items()}`;
      an unknown type is a `KeyError`. */
  function CameraTypeNames<T>(cameraType: map<string, T>, typeToString: map<T, string>): (r: Result<map<string, string>>)
    ensures r.Ok? <==> forall k :: k in cameraType ==> cameraType[k] in typeToString
    ensures r.Err? ==> r.error == KeyError
    ensures r.Ok? ==> r.value.Keys == cameraType.Keys
    ensures r.Ok? ==> forall k :: k in cameraType ==> r.value[k] == typeToString[cameraType[k]]
  {
    if forall k :: k in cameraType ==> cameraType[k] in typeToString then
      Ok(map k | k in cameraType :: typeToString[cameraType[k]])
    else Err(KeyError)
  }

  // ---------------------------------------------------------------- robot state

  /** The flattened robot-state values of `keys`, concatenated in order; a
      missing key is a `KeyError`. */
  function RobotStateVec(keys: seq<string>, robotState: map<string, Entry>): (r: Result<Vec>)
    ensures r.Ok? <==> forall i :: 0 <= i < |keys| ==> keys[i] in robotState
    ensures r.Err? ==> r.error == KeyError
  {
    if keys == [] then Ok([])
    else if keys[0] !in robotState then Err(KeyError)
    else
      var rest := RobotStateVec(keys[1..], robotState);
      if rest.Err? then rest else Ok(Flatten(robotState[keys[0]]) + rest.value)
  }

  lemma SortedHeadIsLeast(xs: seq<string>, y: string)
    requires Sorted(xs) && y in multiset(xs)
    ensures LessEq(xs[0], y)
  {
    var j :| 0 <= j < |xs| && xs[j] == y;
  }

  /** Sorted lists with the same elements start alike. */
  lemma SortedSameHead(xs: seq<string>, ys: seq<string>)
    requires Sorted(xs) && Sorted(ys) && multiset(xs) == multiset(ys) && xs != []
    ensures ys != [] && xs[0] == ys[0]
  {
    assert |ys| == |multiset(ys)| == |multiset(xs)| == |xs|;
    SortedHeadIsLeast(xs, ys[0]);
    SortedHeadIsLeast(ys, xs[0]);
    if xs[0] != ys[0] {
      LessAsymmetric(xs[0], ys[0]);
    }
  }

  lemma SameTail(xs: seq<string>, ys: seq<string>)
    requires xs != [] && ys != [] && xs[0] == ys[0] && multiset(xs) == multiset(ys)
    ensures multiset(xs[1..]) == multiset(ys[1..])
  {
    assert xs == [xs[0]] + xs[1..] && ys == [ys[0]] + ys[1..];
    assert multiset(xs[1..]) == multiset(xs) - multiset{xs[0]};
  }

  /** Two sorted lists with the same elements are equal. */
  lemma {:induction false} SortedUnique(xs: seq<string>, ys: seq<string>)
    requires Sorted(xs) && Sorted(ys) && multiset(xs) == multiset(ys)
    ensures xs == ys
    decreases |xs|
  {
    if xs == [] {
      assert |multiset(ys)| == 0;
    } else {
      SortedSameHead(xs, ys);
      SameTail(xs, ys);
      SortedUnique(xs[1..], ys[1..]);
    }
  }

  /** The robot state does not depend on the order `robot_state_keys` are
      listed in. */
  lemma RobotStateOrderFree(keys: seq<string>, other: seq<string>, robotState: map<string, Entry>)
    requires multiset(keys) == multiset(other)
    ensures RobotStateVec(SortSeq(keys), robotState) == RobotStateVec(SortSeq(other), robotState)
  {
    SortedUnique(SortSeq(keys), SortSeq(other));
  }

  // ---------------------------------------------------------------- grouping by camera

  /** The values of the ids in `ids` that contain `serial`, in order. */
  function Match<V>(serial: string, ids: seq<string>, values: map<string, V>): seq<V>
    requires forall i :: 0 <= i < |ids| ==> ids[i] in values
  {
    if ids == [] then []
    else
      var last := ids[|ids| - 1];
      Match(serial, ids[..|ids| - 1], values) + (if Contains(last, serial) then [values[last]] else [])
  }

  /** Each value tagged with a camera type. */
  function Tag<V>(t: string, vs: seq<V>): (r: seq<(string, V)>)
    ensures |r| == |vs| && forall i :: 0 <= i < |vs| ==> r[i] == (t, vs[i])
  {
    seq(|vs|, i requires 0 <= i < |vs| => (t, vs[i]))
  }

  /** Whether a camera type passes the `camera_extrinsics` filter (no filter
      for the high-dimensional data). */
  predicate Allowed(allowed: Option<seq<string>>, t: string)
  {
    allowed.None? || t in allowed.value
  }

  /** The appends the nested loops perform, in order: for each serial, the
      matching values tagged with the serial's camera type. */
  function Events<V>(serials: seq<string>, camType: map<string, string>, allowed: Option<seq<string>>,
                     ids: seq<string>, values: map<string, V>): seq<(string, V)>
    requires forall i :: 0 <= i < |serials| ==> serials[i] in camType
    requires forall i :: 0 <= i < |ids| ==> ids[i] in values
  {
    if serials == [] then []
    else
      var s := serials[|serials| - 1];
      Events(serials[..|serials| - 1], camType, allowed, ids, values)
      + (if Allowed(allowed, camType[s]) then Tag(camType[s], Match(s, ids, values)) else [])
  }

  /** `defaultdict(list)` after `d[t].append(v)` for each event in turn. */
  function AppendTo<V>(d: map<string, seq<V>>, t: string, v: V): map<string, seq<V>>
  {
    d[t := (if t in d then d[t] else []) + [v]]
  }

  function GroupFrom<V>(d: map<string, seq<V>>, events: seq<(string, V)>): map<string, seq<V>>
  {
    if events == [] then d
    else
      var e := events[|events| - 1];
      AppendTo(GroupFrom(d, events[..|events| - 1]), e.0, e.1)
  }

  lemma {:induction false} GroupFromAppend<V>(d: map<string, seq<V>>, a: seq<(string, V)>, b: seq<(string, V)>)
    ensures GroupFrom(d, a + b) == GroupFrom(GroupFrom(d, a), b)
    decreases |b|
  {
    if b == [] {
      assert a + b == a;
    } else {
      assert (a + b)[..|a + b| - 1] == a + b[..|b| - 1];
      GroupFromAppend(d, a, b[..|b| - 1]);
    }
  }

  /** The reference definition of one group: the values of the events with
      type `t`, in event order. */
  function Values<V>(events: seq<(string, V)>, t: string): seq<V>
  {
    if events == [] then []
    else
      var e := events[|events| - 1];
      Values(events[..|events| - 1], t) + (if e.0 == t then [e.1] else [])
  }

  /** Grouping keeps, for each type, exactly its values in order, and has a
      key exactly for the types that occur. */
  lemma {:induction false} GroupIsValues<V>(events: seq<(string, V)>, t: string)
    ensures t in GroupFrom(map[], events) <==> Values(events, t) != []
    ensures t in GroupFrom(map[], events) ==> GroupFrom(map[], events)[t] == Values(events, t)
    decreases |events|
  {
    if events != [] {
      GroupIsValues(events[..|events| - 1], t);
    }
  }

  /** `sorted(d.keys())` then the lists chained in that order. */
  function ChainSorted<V>(d: map<string, seq<V>>): seq<V>
  {
    ChainKeys(SortedSet(d.Keys), d)
  }

  function ChainKeys<V>(keys: seq<string>, d: map<string, seq<V>>): seq<V>
    requires forall i :: 0 <= i < |keys| ==> keys[i] in d
  {
    if keys == [] then [] else d[keys[0]] + ChainKeys(keys[1..], d)
  }

  /** What one camera type collects: for each allowed serial of that type,
      in the given order, its matching values. */
  function PerType<V>(serials: seq<string>, camType: map<string, string>, allowed: Option<seq<string>>,
                      ids: seq<string>, values: map<string, V>, t: string): seq<V>
    requires forall i :: 0 <= i < |serials| ==> serials[i] in camType
    requires forall i :: 0 <= i < |ids| ==> ids[i] in values
  {
    if serials == [] then []
    else
      var s := serials[|serials| - 1];
      PerType(serials[..|serials| - 1], camType, allowed, ids, values, t)
      + (if camType[s] == t && Allowed(allowed, t) then Match(s, ids, values) else [])
  }

  lemma {:induction false} ValuesOfTag<V>(u: string, vs: seq<V>, t: string)
    ensures Values(Tag(u, vs), t) == if u == t then vs else []
    decreases |vs|
  {
    if vs != [] {
      assert Tag(u, vs)[..|vs| - 1] == Tag(u, vs[..|vs| - 1]);
      ValuesOfTag(u, vs[..|vs| - 1], t);
      assert vs == vs[..|vs| - 1] + [vs[|vs| - 1]];
    }
  }

  lemma {:induction false} ValuesAppend<V>(a: seq<(string, V)>, b: seq<(string, V)>, t: string)
    ensures Values(a + b, t) == Values(a, t) + Values(b, t)
    decreases |b|
  {
    if b == [] {
      assert a + b == a;
    } else {
      assert (a + b)[..|a + b| - 1] == a + b[..|b| - 1];
      ValuesAppend(a, b[..|b| - 1], t);
    }
  }

  /** The events of one type are that type's serials' matches, serial by
      serial. */
  lemma {:induction false} ValuesOfEvents<V>(serials: seq<string>, camType: map<string, string>,
                                             allowed: Option<seq<string>>, ids: seq<string>,
                                             values: map<string, V>, t: string)
    requires forall i :: 0 <= i < |serials| ==> serials[i] in camType
    requires forall i :: 0 <= i < |ids| ==> ids[i] in values
    ensures Values(Events(serials, camType, allowed, ids, values), t) == PerType(serials, camType, allowed, ids, values, t)
    decreases |serials|
  {
    if serials != [] {
      var s := serials[|serials| - 1];
      var init := serials[..|serials| - 1];
      ValuesOfEvents(init, camType, allowed, ids, values, t);
      var tail := if Allowed(allowed, camType[s]) then Tag(camType[s], Match(s, ids, values)) else [];
      ValuesAppend(Events(init, camType, allowed, ids, values), tail, t);
      if Allowed(allowed, camType[s]) {
        ValuesOfTag(camType[s], Match(s, ids, values), t);
      }
    }
  }

  /** The grouped data: each type present exactly when it collected
      something, holding its serials' matches in serial order. */
  lemma GroupedByType<V>(serials: seq<string>, camType: map<string, string>, allowed: Option<seq<string>>,
                         ids: seq<string>, values: map<string, V>, t: string)
    requires forall i :: 0 <= i < |serials| ==> serials[i] in camType
    requires forall i :: 0 <= i < |ids| ==> ids[i] in values
    ensures var g := GroupFrom(map[], Events(serials, camType, allowed, ids, values));
      (t in g <==> PerType(serials, camType, allowed, ids, values, t) != [])
      && (t in g ==> g[t] == PerType(serials, camType, allowed, ids, values, t))
  {
    GroupIsValues(Events(serials, camType, allowed, ids, values), t);
    ValuesOfEvents(serials, camType, allowed, ids, values, t);
  }

  /** The inner loop: append the values of the ids containing `serial`
      under type `t`. */
  method AppendMatches<V>(d: map<string, seq<V>>, t: string, serial: string, ids: seq<string>, values: map<string, V>)
    returns (d': map<string, seq<V>>)
    requires forall i :: 0 <= i < |ids| ==> ids[i] in values
    ensures d' == GroupFrom(d, Tag(t, Match(serial, ids, values)))
  {
    d' := d;
    var j := 0;
    while j < |ids|
      invariant 0 <= j <= |ids|
      invariant d' == GroupFrom(d, Tag(t, Match(serial, ids[..j], values)))
    {
      assert ids[..j + 1][..j] == ids[..j];
      var before := Tag(t, Match(serial, ids[..j], values));
      if Contains(ids[j], serial) {
        assert Tag(t, Match(serial, ids[..j + 1], values)) == before + [(t, values[ids[j]])];
        d' := AppendTo(d', t, values[ids[j]]);
      } else {
        assert Tag(t, Match(serial, ids[..j + 1], values)) == before;
      }
      j := j + 1;
    }
    assert ids[..|ids|] == ids;
  }

  /** The outer loop over the sorted serials, skipping camera types the
      filter rejects. */
  method GroupMatches<V>(serials: seq<string>, camType: map<string, string>, allowed: Option<seq<string>>,
                         ids: seq<string>, values: map<string, V>)
    returns (d: map<string, seq<V>>)
    requires forall i :: 0 <= i < |serials| ==> serials[i] in camType
    requires forall i :: 0 <= i < |ids| ==> ids[i] in values
    ensures d == GroupFrom(map[], Events(serials, camType, allowed, ids, values))
  {
    d := map[];
    var i := 0;
    while i < |serials|
      invariant 0 <= i <= |serials|
      invariant d == GroupFrom(map[], Events(serials[..i], camType, allowed, ids, values))
    {
      assert serials[..i + 1][..i] == serials[..i];
      var s := serials[i];
      var camTypeName := camType[s];
      var before := Events(serials[..i], camType, allowed, ids, values);
      if Allowed(allowed, camTypeName) {
        d := AppendMatches(d, camTypeName, s, ids, values);
        GroupFromAppend(map[], before, Tag(camTypeName, Match(s, ids, values)));
      } else {
        assert Events(serials[..i + 1], camType, allowed, ids, values) == before;
      }
      i := i + 1;
    }
    assert serials[..|serials|] == serials;
  }

  // ---------------------------------------------------------------- the processor

  /** The extrinsics part of the state: the calibrations grouped by camera
      type, chained in sorted type order. */
  function ExtrinsicsState<T, D>(obs: Observation<T, D>, names: map<string, string>, cameraExtrinsics: seq<string>): Vec
    requires names.Keys == obs.cameraType.Keys
  {
    var serials := SortedSet(names.Keys);
    var ids := SortedSet(obs.cameraExtrinsics.Keys);
    Concat(ChainSorted(GroupFrom(map[], Events(serials, names, Some(cameraExtrinsics), ids, obs.cameraExtrinsics))))
  }

  /** `np.concatenate` of a list of vectors. */
  function Concat(vs: seq<Vec>): (r: Vec)
    ensures |vs| == 1 ==> r == vs[0]
  {
    if vs == [] then [] else vs[0] + Concat(vs[1..])
  }

  /** The camera data of one obs type, grouped by camera type. */
  function HighDimGroup<T, D>(obs: Observation<T, D>, names: map<string, string>, obsType: string): map<string, seq<D>>
  {
    var dict := if obsType in obs.highDim then obs.highDim[obsType] else map[];
    GroupFrom(map[], Events(SortedSet(names.Keys), names, None, SortedSet(dict.Keys), dict))
  }

  /** `high_dim_state_dict` after the obs types in `types`: an obs type is
      present only when some camera matched. */
  function HighDim<T, D>(obs: Observation<T, D>, names: map<string, string>, types: seq<string>): map<string, map<string, seq<D>>>
  {
    if types == [] then map[]
    else
      var g := HighDimGroup(obs, names, types[|types| - 1]);
      var rest := HighDim(obs, names, types[..|types| - 1]);
      if g == map[] then rest else rest[types[|types| - 1] := g]
  }

  lemma HighDimSnoc<T, D>(obs: Observation<T, D>, names: map<string, string>, types: seq<string>, k: nat)
    requires k < |types|
    ensures var g := HighDimGroup(obs, names, types[k]);
      HighDim(obs, names, types[..k + 1])
      == if g == map[] then HighDim(obs, names, types[..k]) else HighDim(obs, names, types[..k])[types[k] := g]
  {
    assert types[..k + 1][..k] == types[..k];
  }

  /** The nested loops for one obs type. */
  method GroupObsType<T, D>(obs: Observation<T, D>, names: map<string, string>, obsType: string)
    returns (group: map<string, seq<D>>)
    ensures group == HighDimGroup(obs, names, obsType)
  {
    var obsTypeDict := if obsType in obs.highDim then obs.highDim[obsType] else map[];
    group := GroupMatches(SortedSet(names.Keys), names, None, SortedSet(obsTypeDict.Keys), obsTypeDict);
  }

  /** The loop over the obs types. */
  method CollectHighDim<T, D>(obs: Observation<T, D>, names: map<string, string>, types: seq<string>)
    returns (highDim: map<string, map<string, seq<D>>>)
    ensures highDim == HighDim(obs, names, types)
  {
    highDim := map[];
    var k := 0;
    while k < |types|
      invariant 0 <= k <= |types|
      invariant highDim == HighDim(obs, names, types[..k])
    {
      var group := GroupObsType(obs, names, types[k]);
      HighDimSnoc(obs, names, types, k);
      if group != map[] {
        highDim := highDim[types[k] := group];
      }
      k := k + 1;
    }
    assert types[..|types|] == types;
  }

  /** `np.concatenate([arm_action, [gripper_action]])`: the arm action must
      be an array and the gripper action a number. */
  function JoinAction(arm: Entry, gripper: Entry): (r: Result<Vec>)
    ensures r.Ok? <==> arm.Array? && gripper.Scalar?
    ensures r.Err? ==> r.error == ValueError
    ensures r.Ok? ==> r.value == arm.v + [gripper.x]
  {
    if arm.Array? && gripper.Scalar? then Ok(arm.v + [gripper.x]) else Err(ValueError)
  }

  class TimestepProcesser<T(==), D> {
    const ignoreAction: bool
    const actionSpace: string
    const gripperKey: string
    const robotStateKeys: seq<string>
    const cameraExtrinsics: seq<string>
    /** `camera_type_to_string_dict`. */
    const typeToString: map<T, string>
    /** The image transformer, which rewrites the camera data. */
    const transform: map<string, map<string, seq<D>>> -> map<string, map<string, seq<D>>>

    /** The constructor; its `assert` on the action space is the
        precondition. */
    constructor(ignoreAction: bool, actionSpace: string, robotStateKeys: seq<string>, cameraExtrinsics: seq<string>,
                typeToString: map<T, string>, transform: map<string, map<string, seq<D>>> -> map<string, map<string, seq<D>>>)
      requires actionSpace in ActionSpaces
      ensures this.ignoreAction == ignoreAction && this.actionSpace == actionSpace
      ensures gripperKey == GripperKey(actionSpace)
      ensures this.robotStateKeys == robotStateKeys && this.cameraExtrinsics == cameraExtrinsics
      ensures this.typeToString == typeToString && this.transform == transform
    {
      this.ignoreAction := ignoreAction;
      this.actionSpace := actionSpace;
      gripperKey := GripperKey(actionSpace);
      this.robotStateKeys := robotStateKeys;
      this.cameraExtrinsics := cameraExtrinsics;
      this.typeToString := typeToString;
      this.transform := transform;
    }

    /** `forward`. The timestep is a value, so the caller's copy is never
        changed. */
    method Forward(timestep: Timestep<T, D>) returns (r: Result<Processed<D>>)
      ensures CameraTypeNames(timestep.observation.cameraType, typeToString).Err? ==> r == Err(KeyError)
      ensures (CameraTypeNames(timestep.observation.cameraType, typeToString).Ok?
               && RobotStateVec(SortSeq(robotStateKeys), timestep.observation.robotState).Err?) ==> r == Err(KeyError)
      ensures r.Ok? ==>
        var obs := timestep.observation;
        var names := CameraTypeNames(obs.cameraType, typeToString);
        names.Ok?
        && RobotStateVec(SortSeq(robotStateKeys), obs.robotState).Ok?
        && r.value.state == RobotStateVec(SortSeq(robotStateKeys), obs.robotState).value
                            + ExtrinsicsState(obs, names.value, cameraExtrinsics)
        && r.value.camera == transform(HighDim(obs, names.value, ObsTypes))
      ensures r.Ok? && ignoreAction ==> r.value.action == None
      ensures (CameraTypeNames(timestep.observation.cameraType, typeToString).Ok?
               && RobotStateVec(SortSeq(robotStateKeys), timestep.observation.robotState).Ok? && !ignoreAction) ==>
        (actionSpace !in timestep.action || gripperKey !in timestep.action ==> r == Err(KeyError))
        && (actionSpace in timestep.action && gripperKey in timestep.action ==>
              var joined := JoinAction(timestep.action[actionSpace], timestep.action[gripperKey]);
              (joined.Err? ==> r == Err(ValueError)) && (joined.Ok? ==> r.Ok? && r.value.action == Some(joined.value)))
    {
      var obs := timestep.observation;
      var names := CameraTypeNames(obs.cameraType, typeToString);
      if names.Err? {
        return Err(KeyError);
      }
      var camTypeNames := names.value;
      var sortedCameraIds := SortedSet(camTypeNames.Keys);

      var robotState := RobotStateVec(SortSeq(robotStateKeys), obs.robotState);
      if robotState.Err? {
        return Err(KeyError);
      }

      var sortedCalibratedIds := SortedSet(obs.cameraExtrinsics.Keys);
      var extrinsicsDict := GroupMatches(sortedCameraIds, camTypeNames, Some(cameraExtrinsics),
                                         sortedCalibratedIds, obs.cameraExtrinsics);
      var extrinsicsState := Concat(ChainSorted(extrinsicsDict));

      var highDim := CollectHighDim(obs, camTypeNames, ObsTypes);

      var processed := Processed(robotState.value + extrinsicsState, transform(highDim), None);
      if !ignoreAction {
        if actionSpace !in timestep.action || gripperKey !in timestep.action {
          return Err(KeyError);
        }
        var action := JoinAction(timestep.action[actionSpace], timestep.action[gripperKey]);
        if action.Err? {
          return Err(ValueError);
        }
        processed := processed.(action := Some(action.value));
      }
      return Ok(processed);
    }
  }
}
