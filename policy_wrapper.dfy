/** The frame-stacking observation history and the robomimic policy wrapper
    of droid/evaluation/policy_wrapper.py. Observation values are abstract
    (`O`); the timestep processor and the policy network are given as
    inputs and function fields. */
module PolicyWrapper {
  import opened Wrappers

  // ---------------------------------------------------------------- deque

  /** A `collections.deque` with a maximum length. */
  datatype Deque<O> = Deque(items: seq<O>, maxlen: nat)

  /** The last `m` entries of `s` (all of them when there are fewer). */
  function Window<O>(s: seq<O>, m: nat): (r: seq<O>)
    ensures |r| == if |s| <= m then |s| else m
    ensures r == s[|s| - |r|..]
  {
    if |s| <= m then s else s[|s| - m..]
  }

  /** `d.append(x)`: the new item goes last and, on overflow, the oldest
      items are dropped. */
  function Append<O>(d: Deque<O>, x: O): (r: Deque<O>)
    ensures r.items == Window(d.items + [x], d.maxlen)
    ensures r.maxlen == d.maxlen
    ensures |d.items| <= d.maxlen ==> |r.items| == (if |d.items| < d.maxlen then |d.items| + 1 else d.maxlen)
    ensures d.maxlen > 0 ==> r.items[|r.items| - 1] == x
  {
    Deque(Window(d.items + [x], d.maxlen), d.maxlen)
  }

  /** Appending to a window of a stream is the window of the longer stream. */
  lemma WindowAppend<O>(s: seq<O>, x: O, m: nat)
    ensures Window(Window(s, m) + [x], m) == Window(s + [x], m)
  {
  }

  function Repeat<O>(x: O, n: nat): (r: seq<O>)
    ensures |r| == n && forall i :: 0 <= i < n ==> r[i] == x
  {
    seq(n, _ => x)
  }

  /** A window over repeated copies of one value is all copies. */
  lemma WindowOfCopies<O>(x: O, n: nat)
    ensures Window(Repeat(x, n) + [x], n) == Repeat(x, n)
  {
    var s := Repeat(x, n) + [x];
    var w := Window(s, n);
    assert |w| == n;
    forall i | 0 <= i < n
      ensures w[i] == x
    {
      assert w[i] == s[|s| - n + i];
    }
  }

  // ---------------------------------------------------------------- FrameStackWrapper

  /** `get_obs_history` for one key: the only frame when `num_frames == 1`,
      otherwise the frames stacked oldest first. */
  datatype Stacked<O> = Single(frame: O) | Stack(frames: seq<O>)

  /** The reference definition of one key's history: of the padded stream
      (the first observation repeated `n` times, then every observation in
      arrival order), the last `n`. */
  function StreamWindow<O>(first: O, arrived: seq<O>, n: nat): seq<O>
  {
    Window(Repeat(first, n) + arrived, n)
  }

  lemma {:induction false} StreamWindowAppend<O>(first: O, arrived: seq<O>, x: O, n: nat)
    ensures Window(StreamWindow(first, arrived, n) + [x], n) == StreamWindow(first, arrived + [x], n)
  {
    WindowAppend(Repeat(first, n) + arrived, x, n);
    assert Repeat(first, n) + arrived + [x] == Repeat(first, n) + (arrived + [x]);
  }

  /** The history after `add_obs` has appended `obs[k]` for each key in
      `done` (the keys of `obs` visited so far). */
  function AppendKeys<O>(h: map<string, Deque<O>>, done: set<string>, obs: map<string, O>): (r: map<string, Deque<O>>)
    requires done <= obs.Keys && done <= h.Keys
    ensures r.Keys == h.Keys
    ensures forall k :: k in h && k in done ==> r[k] == Append(h[k], obs[k])
    ensures forall k :: k in h && k !in done ==> r[k] == h[k]
  {
    map k | k in h :: if k in done then Append(h[k], obs[k]) else h[k]
  }

  /** `_set_initial_obs_history`: `num_frames` copies of each value. */
  function InitialHistory<O>(obs: map<string, O>, n: nat): (r: map<string, Deque<O>>)
    ensures r.Keys == obs.Keys
    ensures forall k :: k in obs ==> r[k] == Deque(Repeat(obs[k], n), n)
  {
    map k | k in obs :: Deque(Repeat(obs[k], n), n)
  }

  /** The first position of `keys` not in `h`, or `|keys|`. */
  function FirstMissing<O>(keys: seq<string>, h: map<string, Deque<O>>): (i: nat)
    ensures i <= |keys|
    ensures forall j :: 0 <= j < i ==> keys[j] in h
    ensures i < |keys| ==> keys[i] !in h
  {
    if keys == [] then 0
    else if keys[0] !in h then 0
    else 1 + FirstMissing(keys[1..], h)
  }

  /** The keys of a dict in iteration order, each once. */
  predicate IsKeyOrder<O>(keys: seq<string>, m: map<string, O>)
  {
    (forall i, j :: 0 <= i < j < |keys| ==> keys[i] != keys[j]) && (set k | k in keys) == m.Keys
  }

  class FrameStackWrapper<O> {
    const numFrames: int
    var obsHistory: Option<map<string, Deque<O>>>

    /** Every key holds exactly `num_frames` frames. */
    predicate Valid()
      reads this
    {
      obsHistory.Some? ==>
        forall k :: k in obsHistory.value ==>
          numFrames >= 0 && obsHistory.value[k].maxlen == numFrames && |obsHistory.value[k].items| == numFrames
    }

    constructor(numFrames: int)
      ensures this.numFrames == numFrames && obsHistory == None && Valid()
    {
      this.numFrames := numFrames;
      obsHistory := None;
    }

    method Reset()
      modifies this
      ensures obsHistory == None && Valid()
    {
      obsHistory := None;
    }

    /** `_set_initial_obs_history`. A negative `num_frames` is rejected by
        `deque(maxlen=...)` as soon as there is a key to create. */
    method SetInitialObsHistory(keys: seq<string>, initObs: map<string, O>) returns (r: Result<()>)
      requires IsKeyOrder(keys, initObs)
      modifies this
      ensures r.Ok? <==> numFrames >= 0 || keys == []
      ensures r.Err? ==> r.error == ValueError && obsHistory == Some(map[])
      ensures r.Ok? && numFrames >= 0 ==> obsHistory == Some(InitialHistory(initObs, numFrames))
      ensures r.Ok? && numFrames < 0 ==> obsHistory == Some(map[])
      ensures r.Ok? ==> Valid()
    {
      obsHistory := Some(map[]);
      if numFrames < 0 {
        if keys != [] {
          return Err(ValueError);
        }
        return Ok(());
      }
      var h: map<string, Deque<O>> := map[];
      var i := 0;
      while i < |keys|
        invariant 0 <= i <= |keys|
        invariant h.Keys == set j | 0 <= j < i :: keys[j]
        invariant forall k :: k in h ==> k in initObs && h[k] == Deque(Repeat(initObs[k], numFrames), numFrames)
      {
        h := h[keys[i] := Deque(Repeat(initObs[keys[i]], numFrames), numFrames)];
        i := i + 1;
      }
      assert forall k :: k in initObs ==> k in keys;
      assert h.Keys == initObs.Keys;
      assert h == InitialHistory(initObs, numFrames);
      obsHistory := Some(h);
      return Ok(());
    }

    /** `add_obs`: seed the history on the first call, then append each
        value to its key's deque, in the dict's order. A key the history
        lacks is a `KeyError`, after the keys before it were appended. */
    method AddObs(keys: seq<string>, obs: map<string, O>) returns (r: Result<()>)
      requires IsKeyOrder(keys, obs) && Valid()
      modifies this
      ensures old(obsHistory).None? && numFrames < 0 && keys != [] ==> r == Err(ValueError)
      ensures old(obsHistory).None? && numFrames >= 0 ==>
        r.Ok? && obsHistory == Some(AppendKeys(InitialHistory(obs, numFrames), obs.Keys, obs))
      ensures old(obsHistory).Some? ==>
        var h := old(obsHistory).value;
        var i := FirstMissing(keys, h);
        (r.Ok? <==> obs.Keys <= h.Keys)
        && (r.Err? ==> r.error == KeyError)
        && obsHistory == Some(AppendKeys(h, KeysBefore(keys, i), obs))
      ensures r.Ok? ==> Valid()
    {
      if obsHistory.None? {
        r := SetInitialObsHistory(keys, obs);
        if r.Err? {
          return;
        }
      }
      r := AppendEach(keys, obs);
    }

    /** The loop of `add_obs` over the keys of `obs`. */
    method AppendEach(keys: seq<string>, obs: map<string, O>) returns (r: Result<()>)
      requires IsKeyOrder(keys, obs) && obsHistory.Some? && Valid()
      modifies this
      ensures var h := old(obsHistory).value;
        (r.Ok? <==> obs.Keys <= h.Keys)
        && (r.Err? ==> r.error == KeyError)
        && obsHistory == Some(AppendKeys(h, KeysBefore(keys, FirstMissing(keys, h)), obs))
      ensures r.Ok? ==> obsHistory == Some(AppendKeys(old(obsHistory).value, obs.Keys, obs))
      ensures Valid()
    {
      var h := obsHistory.value;
      ghost var h0 := h;
      var i := 0;
      while i < |keys|
        invariant 0 <= i <= |keys| && obsHistory == Some(h0)
        invariant forall j :: 0 <= j < i ==> keys[j] in h0
        invariant KeysBefore(keys, i) <= obs.Keys && KeysBefore(keys, i) <= h0.Keys
        invariant h == AppendKeys(h0, KeysBefore(keys, i), obs)
      {
        if keys[i] !in h {
          FirstMissingIs(keys, h0, i);
          AppendKeysValid(h0, KeysBefore(keys, i), obs, numFrames);
          obsHistory := Some(h);
          return Err(KeyError);
        }
        AppendKeysStep(keys, h0, obs, i);
        h := h[keys[i] := Append(h[keys[i]], obs[keys[i]])];
        i := i + 1;
      }
      FirstMissingIs(keys, h0, |keys|);
      KeysBeforeAll(keys, obs);
      AppendKeysValid(h0, obs.Keys, obs, numFrames);
      obsHistory := Some(h);
      return Ok(());
    }

    /** `get_obs_history`: every key's frames concatenated, or the single
        frame when `num_frames == 1`. Without a history the iteration over
        `None` is a `TypeError`; with no frames at all the concatenation is a
        `ValueError`. */
    function GetObsHistory(): (r: Result<map<string, Stacked<O>>>)
      reads this
      requires Valid()
      ensures obsHistory.None? <==> r == Err(TypeError)
      ensures obsHistory.Some? && numFrames == 0 && obsHistory.value != map[] <==> r == Err(ValueError)
      ensures r.Ok? ==> r.value.Keys == obsHistory.value.Keys
      ensures r.Ok? && numFrames == 1 ==>
        forall k :: k in r.value ==> r.value[k] == Single(obsHistory.value[k].items[0])
      ensures r.Ok? && numFrames != 1 ==>
        forall k :: k in r.value ==> r.value[k] == Stack(obsHistory.value[k].items)
    {
      if obsHistory.None? then Err(TypeError)
      else if numFrames == 1 then Ok(map k | k in obsHistory.value :: Single(obsHistory.value[k].items[0]))
      else if numFrames == 0 && obsHistory.value != map[] then Err(ValueError)
      else Ok(map k | k in obsHistory.value :: Stack(obsHistory.value[k].items))
    }
  }

  /** The keys visited before position `i`. */
  function KeysBefore(keys: seq<string>, i: nat): (d: set<string>)
    requires i <= |keys|
  {
    set j | 0 <= j < i :: keys[j]
  }

  lemma KeysBeforeAll<O>(keys: seq<string>, m: map<string, O>)
    requires IsKeyOrder(keys, m)
    ensures KeysBefore(keys, |keys|) == m.Keys
  {
    assert forall k :: k in m ==> k in keys;
  }

  /** One more pass of the `add_obs` loop appends to one more key. */
  lemma AppendKeysStep<O>(keys: seq<string>, h: map<string, Deque<O>>, obs: map<string, O>, i: nat)
    requires IsKeyOrder(keys, obs) && i < |keys| && keys[i] in h
    requires KeysBefore(keys, i) <= obs.Keys && KeysBefore(keys, i) <= h.Keys
    ensures KeysBefore(keys, i + 1) == KeysBefore(keys, i) + {keys[i]}
    ensures keys[i] !in KeysBefore(keys, i)
    ensures AppendKeys(h, KeysBefore(keys, i + 1), obs)
         == AppendKeys(h, KeysBefore(keys, i), obs)[keys[i] := Append(h[keys[i]], obs[keys[i]])]
  {
    assert keys[i] in obs;
  }

  /** Appending keeps every deque full. */
  lemma AppendKeysValid<O>(h: map<string, Deque<O>>, done: set<string>, obs: map<string, O>, n: int)
    requires done <= obs.Keys && done <= h.Keys
    requires forall k :: k in h ==> n >= 0 && h[k].maxlen == n && |h[k].items| == n
    ensures forall k :: k in AppendKeys(h, done, obs) ==>
      AppendKeys(h, done, obs)[k].maxlen == n && |AppendKeys(h, done, obs)[k].items| == n
  {
  }

  lemma {:induction false} FirstMissingIs<O>(keys: seq<string>, h: map<string, Deque<O>>, i: nat)
    requires i <= |keys| && (forall j :: 0 <= j < i ==> keys[j] in h) && (i < |keys| ==> keys[i] !in h)
    ensures FirstMissing(keys, h) == i
    decreases i
  {
    if i > 0 {
      FirstMissingIs(keys[1..], h, i - 1);
    }
  }

  /** Right after the first `add_obs`, every frame of every key is the
      first observation's value. */
  lemma FirstAddGivesCopies<O>(obs: map<string, O>, n: nat)
    ensures forall k :: k in obs ==> AppendKeys(InitialHistory(obs, n), obs.Keys, obs)[k] == Deque(Repeat(obs[k], n), n)
  {
    forall k | k in obs
      ensures AppendKeys(InitialHistory(obs, n), obs.Keys, obs)[k] == Deque(Repeat(obs[k], n), n)
    {
      WindowOfCopies(obs[k], n);
    }
  }

  /** Each key's deque after the first observation and the ones after it is
      the last `num_frames` of the padded stream. */
  lemma {:induction false} HistoryIsStreamWindow<O>(first: O, later: seq<O>, n: nat)
    ensures RunAppends(Deque(Repeat(first, n), n), [first] + later) == Deque(StreamWindow(first, [first] + later, n), n)
    decreases |later|
  {
    if later == [] {
      WindowOfCopies(first, n);
    } else {
      var init := later[..|later| - 1];
      var x := later[|later| - 1];
      assert [first] + later == ([first] + init) + [x];
      RunAppendsSnoc(Deque(Repeat(first, n), n), [first] + init, x);
      HistoryIsStreamWindow(first, init, n);
      StreamWindowAppend(first, [first] + init, x, n);
    }
  }

  /** Appending a sequence of values one by one. */
  function RunAppends<O>(d: Deque<O>, xs: seq<O>): Deque<O>
    decreases |xs|
  {
    if xs == [] then d else RunAppends(Append(d, xs[0]), xs[1..])
  }

  lemma {:induction false} RunAppendsSnoc<O>(d: Deque<O>, xs: seq<O>, x: O)
    ensures RunAppends(d, xs + [x]) == Append(RunAppends(d, xs), x)
    decreases |xs|
  {
    if xs == [] {
      assert xs + [x] == [x];
    } else {
      assert (xs + [x])[1..] == xs[1..] + [x];
      RunAppendsSnoc(Append(d, xs[0]), xs[1..], x);
    }
  }

  // ---------------------------------------------------------------- PolicyWrapperRobomimic

  /** A value of the observation passed to the frame stack: an entry of
      `robot_state` or the processed image, or an entry wrapped in a
      one-element array. */
  datatype Value<O> = Item(item: O) | Wrapped(wrapped: O)

  /** What the timestep processor returns that `forward` reads: the static
      camera image and the number of its dimensions. */
  datatype Processed<O> = Processed(staticImage: O, staticImageRank: nat)

  /** The observation layout `forward` builds from `robot_state`: the
      state/image layout if 'state' is present, else the
      cartesian/gripper/static_image layout if 'cartesian_position' is;
      otherwise a `ValueError`, and a missing 'gripper_position' in the
      second layout a `KeyError`. */
  function SelectObs<O>(robotState: map<string, O>, image: O): (r: Result<map<string, Value<O>>>)
    ensures "state" in robotState ==>
      r == Ok(map["state" := Item(robotState["state"]), "image" := Item(image)])
    ensures "state" !in robotState && "cartesian_position" in robotState && "gripper_position" in robotState ==>
      r == Ok(map["robot_state/cartesian_position" := Item(robotState["cartesian_position"]),
                  "robot_state/gripper_position" := Wrapped(robotState["gripper_position"]),
                  "static_image" := Item(image)])
    ensures "state" !in robotState && "cartesian_position" in robotState && "gripper_position" !in robotState ==>
      r == Err(KeyError)
    ensures "state" !in robotState && "cartesian_position" !in robotState ==> r == Err(ValueError)
  {
    if "state" in robotState then
      Ok(map["state" := Item(robotState["state"]), "image" := Item(image)])
    else if "cartesian_position" in robotState then
      if "gripper_position" !in robotState then Err(KeyError)
      else Ok(map["robot_state/cartesian_position" := Item(robotState["cartesian_position"]),
                  "robot_state/gripper_position" := Wrapped(robotState["gripper_position"]),
                  "static_image" := Item(image)])
    else Err(ValueError)
  }

  /** The dict order of the layouts `SelectObs` builds. */
  function ObsKeys<O>(robotState: map<string, O>): (keys: seq<string>)
  {
    if "state" in robotState then ["state", "image"]
    else ["robot_state/cartesian_position", "robot_state/gripper_position", "static_image"]
  }

  lemma ObsKeysOrder<O>(robotState: map<string, O>, image: O)
    requires SelectObs(robotState, image).Ok?
    ensures IsKeyOrder(ObsKeys(robotState), SelectObs(robotState, image).value)
  {
  }

  class PolicyWrapperRobomimic<O, L, A> {
    /** The policy network: called on the stacked history and the task label. */
    const policy: (map<string, Stacked<Value<O>>>, L) -> A
    const fsWrapper: FrameStackWrapper<Value<O>>
    /** How many times `policy.start_episode()` has been called. */
    var episodesStarted: nat

    predicate Valid()
      reads this, fsWrapper
    {
      fsWrapper.Valid()
    }

    /** The constructor; `assert eval_mode is True` is its precondition. */
    constructor(policy: (map<string, Stacked<Value<O>>>, L) -> A, frameStack: int, evalMode: bool)
      requires evalMode
      ensures this.policy == policy && fresh(fsWrapper)
      ensures fsWrapper.numFrames == frameStack && fsWrapper.obsHistory == None
      ensures episodesStarted == 1 && Valid()
    {
      this.policy := policy;
      var fs := new FrameStackWrapper(frameStack);
      fs.Reset();
      fsWrapper := fs;
      episodesStarted := 1;
    }

    /** `forward`: check the image, choose the layout, add it to the frame
        stack and call the policy on the history and the task label. */
    method Forward(robotState: map<string, O>, processed: Processed<O>, taskLabel: L) returns (r: Result<A>)
      requires Valid()
      modifies fsWrapper
      ensures processed.staticImageRank != 3 ==> r == Err(AssertionError) && unchanged(fsWrapper)
      ensures processed.staticImageRank == 3 && SelectObs(robotState, processed.staticImage).Err? ==>
        r == Err(SelectObs(robotState, processed.staticImage).error) && unchanged(fsWrapper)
      ensures processed.staticImageRank == 3 && SelectObs(robotState, processed.staticImage).Ok? ==>
        var obs, keys, n := SelectObs(robotState, processed.staticImage).value, ObsKeys(robotState), fsWrapper.numFrames;
        (old(fsWrapper.obsHistory).None? && n < 0 && keys != [] ==> r == Err(ValueError))
        && (old(fsWrapper.obsHistory).None? && n >= 0 ==>
              fsWrapper.obsHistory == Some(AppendKeys(InitialHistory(obs, n), obs.Keys, obs)))
        && (old(fsWrapper.obsHistory).Some? ==>
              var h := old(fsWrapper.obsHistory).value;
              fsWrapper.obsHistory == Some(AppendKeys(h, KeysBefore(keys, FirstMissing(keys, h)), obs))
              && (!(obs.Keys <= h.Keys) ==> r == Err(KeyError)))
      ensures processed.staticImageRank == 3 && SelectObs(robotState, processed.staticImage).Ok? ==>
        var obs, keys, n := SelectObs(robotState, processed.staticImage).value, ObsKeys(robotState), fsWrapper.numFrames;
        var added := if old(fsWrapper.obsHistory).None? then n >= 0 || keys == [] else obs.Keys <= old(fsWrapper.obsHistory).value.Keys;
        added ==>
          fsWrapper.Valid()
          && r == (if fsWrapper.GetObsHistory().Err? then Err(fsWrapper.GetObsHistory().error)
                   else Ok(policy(fsWrapper.GetObsHistory().value, taskLabel)))
      ensures r.Ok? ==>
        var obs := SelectObs(robotState, processed.staticImage);
        obs.Ok? && fsWrapper.Valid() && fsWrapper.GetObsHistory().Ok?
        && r.value == policy(fsWrapper.GetObsHistory().value, taskLabel)
      ensures r.Ok? ==> Valid()
    {
      if processed.staticImageRank != 3 {
        return Err(AssertionError);
      }
      var obs := SelectObs(robotState, processed.staticImage);
      if obs.Err? {
        return Err(obs.error);
      }
      ObsKeysOrder(robotState, processed.staticImage);
      var added := fsWrapper.AddObs(ObsKeys(robotState), obs.value);
      if added.Err? {
        return Err(added.error);
      }
      var history := fsWrapper.GetObsHistory();
      if history.Err? {
        return Err(history.error);
      }
      return Ok(policy(history.value, taskLabel));
    }

    /** `reset`: clear the frame history and start a new episode. */
    method Reset()
      requires Valid()
      modifies this, fsWrapper
      ensures fsWrapper.obsHistory == None && Valid()
      ensures episodesStarted == old(episodesStarted) + 1
    {
      fsWrapper.Reset();
      episodesStarted := episodesStarted + 1;
    }
  }
}
