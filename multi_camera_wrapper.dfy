/** The live camera wrapper of r2d2/camera_utils/wrappers/multi_camera_wrapper.py:
    every connected ZED camera keyed by serial number, configured with the
    reading arguments of its type, switched between modes together and read
    in a shuffled order.

    The wrapper imports `gather_zed_cameras` from
    r2d2/camera_utils/readers/zed_camera.py, whose `ZedCamera` has no
    `set_reading_parameters`, so construction as written raises as soon as
    one camera is connected (`ConstructAsWritten`). The rest of the wrapper
    calls exactly the interface of r2d2/camera_utils/camera_readers/zed_camera.py
    (`set_reading_parameters(**kwargs)`, `read_camera()` without arguments),
    so the wrapper is modelled over that reader, with its mode setters
    corrected (module `ZedCameraReader`).

    The connected devices, the shuffled order, the camera-type table behind
    `get_camera_type` and, per camera, the outcome of each grab and of
    `enable_recording` are inputs. */
module MultiCamera {
  import opened Wrappers
  import PyStrings
  import RecordedZed
  import ZedReader
  import Z = ZedCameraReader
  import RecordedMultiCamera

  // ---------------------------------------------------------------- construction as written

  /** The constructor as written: `gather_zed_cameras` builds one
      `ZedReader.ZedCamera` per device, each opened in trajectory mode, and
      the first `set_reading_parameters` call then raises `AttributeError`,
      since that class has no such method. */
  method ConstructAsWritten(devices: seq<string>) returns (cams: seq<ZedReader.ZedCamera>, r: Result<()>)
    ensures |cams| == |devices|
    ensures forall i :: 0 <= i < |cams| ==> cams[i].serialNumber == devices[i] && cams[i].mode == ZedReader.Trajectory
    ensures r.Err? <==> |devices| > 0
    ensures r.Err? ==> r.error == AttributeError
  {
    cams := [];
    var i := 0;
    while i < |devices|
      invariant 0 <= i <= |devices| && |cams| == i
      invariant forall j :: 0 <= j < i ==> cams[j].serialNumber == devices[j] && cams[j].mode == ZedReader.Trajectory
    {
      var cam := new ZedReader.ZedCamera(devices[i]);
      cams := cams + [cam];
      i := i + 1;
    }
    if |cams| > 0 {
      return cams, Err(AttributeError);
    }
    return cams, Ok(());
  }

  // ---------------------------------------------------------------- paths and keyword arguments

  /** `os.path.join(folder, name)`. */
  function PathJoin(folder: string, name: string): (r: string)
    ensures PyStrings.EndsWith(r, name)
    ensures PyStrings.StartsWith(name, "/") ==> r == name
    ensures !PyStrings.StartsWith(name, "/") && folder != [] && !PyStrings.EndsWith(folder, "/") ==> r == folder + "/" + name
  {
    if PyStrings.StartsWith(name, "/") then name
    else if folder == [] || PyStrings.EndsWith(folder, "/") then folder + name
    else folder + "/" + name
  }

  /** A camera records to its serial number plus '.svo' in the folder. */
  function RecordingPath(folder: string, serial: string): (r: string)
    ensures PyStrings.EndsWith(r, ".svo")
  {
    var name := serial + ".svo";
    assert name[|name| - 4..] == ".svo";
    PathJoin(folder, name)
  }

  /** `camera_kwargs.get(cam_type, {})`: `{}` passes the defaults. */
  function KwargsFor(cameraKwargs: map<string, Z.ReadingKwargs>, camType: Option<string>): (k: Z.ReadingKwargs)
    ensures camType.Some? && camType.value in cameraKwargs ==> k == cameraKwargs[camType.value]
    ensures !(camType.Some? && camType.value in cameraKwargs) ==> k == Z.DefaultKwargs
  {
    if camType.Some? && camType.value in cameraKwargs then cameraKwargs[camType.value] else Z.DefaultKwargs
  }

  /** The arguments the camera with serial number `k` is configured with. */
  function KwargsOf(cameraTypes: map<string, string>, cameraKwargs: map<string, Z.ReadingKwargs>, k: string): Z.ReadingKwargs
  {
    KwargsFor(cameraKwargs, RecordedMultiCamera.TypeOf(cameraTypes, k))
  }

  /** The state of a camera after `set_reading_parameters` and
      `set_trajectory_mode`. */
  function Launched(k: Z.ReadingKwargs): (s: Z.ZedState)
  {
    Z.EnterTrajectory(Z.ConfigureReading(Z.Fresh, k).state).state
  }

  /** A launched camera is in trajectory mode with one camera open and
      reads what its arguments request. */
  lemma LaunchedRuns(k: Z.ReadingKwargs)
    requires Z.ResizeFuncMap(k.resizeFunc).Ok?
    ensures Launched(k).mode == ZedReader.Trajectory && Z.Running(Launched(k))
    ensures Z.Valid(Launched(k)) && Launched(k).opens == 1 && Launched(k).closes == 0
    ensures Launched(k).view.value.skipReading <==> !(k.image || k.depth || k.pointcloud)
  {
    var c := Z.ConfigureReading(Z.Fresh, k);
    assert c.result.Ok? && Z.Valid(c.state);
  }

  // ---------------------------------------------------------------- the dictionary of cameras

  ghost predicate Distinct(ids: seq<string>)
  {
    forall i, j :: 0 <= i < j < |ids| ==> ids[i] != ids[j]
  }

  /** `ids` lists the keys of `d` once each, and no camera is shared. */
  ghost predicate Indexed<M>(d: map<string, Z.ZedCamera<M>>, ids: seq<string>)
  {
    Distinct(ids)
    && (forall k :: k in d <==> k in ids)
    && (forall a, b :: a in d && b in d && a != b ==> d[a] != d[b])
  }

  lemma IndexedInsert<M>(d: map<string, Z.ZedCamera<M>>, ids: seq<string>, k: string, cam: Z.ZedCamera<M>)
    requires Indexed(d, ids)
    requires forall j :: j in d ==> d[j] != cam
    ensures Indexed(d[k := cam], if k in d then ids else ids + [k])
  {
  }

  /** `gather_zed_cameras` and `{cam.serial_number: cam for cam in ...}`:
      one reader per device; a later device with the same serial number
      replaces the earlier reader. */
  method Gather<M>(devices: seq<string>, cv2Resize: (M, (int, int)) -> M)
    returns (d: map<string, Z.ZedCamera<M>>, ids: seq<string>)
    ensures Indexed(d, ids)
    ensures forall s :: s in d <==> s in devices
    ensures fresh(d.Values)
    ensures forall k :: k in d ==> Gathered(d[k], k, cv2Resize)
  {
    d := map[];
    ids := [];
    var i := 0;
    while i < |devices|
      invariant 0 <= i <= |devices|
      invariant Indexed(d, ids)
      invariant forall s :: s in d <==> s in devices[..i]
      invariant fresh(d.Values)
      invariant forall k :: k in d ==> Gathered(d[k], k, cv2Resize)
    {
      d, ids := GatherOne(d, ids, devices[i], cv2Resize);
      assert devices[..i + 1] == devices[..i] + [devices[i]];
      i := i + 1;
    }
    assert devices[..i] == devices;
  }

  /** A reader just built for serial number `k`. */
  ghost predicate Gathered<M>(cam: Z.ZedCamera<M>, k: string, cv2Resize: (M, (int, int)) -> M)
    reads cam
  {
    cam.serialNumber == k && cam.cv2Resize == cv2Resize && cam.State() == Z.Fresh
  }

  /** One device of `gather_zed_cameras`, entered into the dictionary. */
  method GatherOne<M>(d: map<string, Z.ZedCamera<M>>, ids: seq<string>, serial: string, cv2Resize: (M, (int, int)) -> M)
    returns (d': map<string, Z.ZedCamera<M>>, ids': seq<string>)
    requires Indexed(d, ids)
    ensures Indexed(d', ids') && d'.Keys == d.Keys + {serial}
    ensures fresh(d'[serial]) && Gathered(d'[serial], serial, cv2Resize)
    ensures forall k :: k in d && k != serial ==> d'[k] == d[k]
    ensures d'.Values <= d.Values + {d'[serial]}
  {
    var cam := new Z.ZedCamera(serial, cv2Resize);
    IndexedInsert(d, ids, serial, cam);
    ids' := if serial in d then ids else ids + [serial];
    d' := d[serial := cam];
  }

  /** Lines 16-19: each camera gets the keyword arguments of its type; an
      unknown resizer name raises `KeyError` and stops the loop. */
  method Prepare<M>(d: map<string, Z.ZedCamera<M>>, ids: seq<string>, cameraTypes: map<string, string>,
                    cameraKwargs: map<string, Z.ReadingKwargs>) returns (r: Result<()>)
    requires Indexed(d, ids)
    modifies d.Values
    ensures r.Ok? <==> forall k :: k in d ==> Z.ResizeFuncMap(KwargsOf(cameraTypes, cameraKwargs, k).resizeFunc).Ok?
    ensures r.Err? ==> r.error == KeyError
    ensures r.Ok? ==> forall k :: k in d ==> d[k].State() == Z.ConfigureReading(old(d[k].State()), KwargsOf(cameraTypes, cameraKwargs, k)).state
  {
    var i := 0;
    while i < |ids|
      invariant 0 <= i <= |ids|
      invariant forall j :: 0 <= j < i ==> Z.ResizeFuncMap(KwargsOf(cameraTypes, cameraKwargs, ids[j]).resizeFunc).Ok?
      invariant forall k :: k in d ==>
        d[k].State() == if k in ids[..i] then Z.ConfigureReading(old(d[k].State()), KwargsOf(cameraTypes, cameraKwargs, k)).state
                        else old(d[k].State())
    {
      var cam := d[ids[i]];
      var res := cam.SetReadingParameters(KwargsOf(cameraTypes, cameraKwargs, ids[i]));
      if res.Err? {
        return res;
      }
      assert ids[..i + 1] == ids[..i] + [ids[i]];
      i := i + 1;
    }
    assert ids[..i] == ids;
    return Ok(());
  }

  /** `__init__`: gather the cameras, configure each with its type's
      arguments, and launch them all in trajectory mode. `cameraTypes`
      plays the part of `get_camera_type`. */
  method Open<M>(devices: seq<string>, cameraTypes: map<string, string>, cameraKwargs: map<string, Z.ReadingKwargs>,
                 cv2Resize: (M, (int, int)) -> M) returns (r: Result<MultiCameraWrapper<M>>)
    ensures r.Ok? <==> forall s :: s in devices ==> Z.ResizeFuncMap(KwargsOf(cameraTypes, cameraKwargs, s).resizeFunc).Ok?
    ensures r.Err? ==> r.error == KeyError
    ensures r.Ok? ==> var w := r.value;
      fresh(w) && fresh(w.cameraDict.Values) && w.Valid() && w.Ready() && w.cv2Resize == cv2Resize
      && (forall s :: s in w.cameraDict <==> s in devices)
      && forall k :: k in w.cameraDict ==> w.cameraDict[k].State() == Launched(KwargsOf(cameraTypes, cameraKwargs, k))
  {
    var d, ids := Gather(devices, cv2Resize);
    var prepared := Prepare(d, ids, cameraTypes, cameraKwargs);
    if prepared.Err? {
      return Err(prepared.error);
    }
    var w := new MultiCameraWrapper(d, ids, cv2Resize);
    forall k | k in d
      ensures Z.Valid(d[k].State()) && Prepared(d[k].State())
    {
      var c := Z.ConfigureReading(Z.Fresh, KwargsOf(cameraTypes, cameraKwargs, k));
      assert Z.Valid(c.state) && c.result.Ok?;
    }
    w.SetTrajectoryMode();
    return Ok(w);
  }

  /** What a camera needs to switch into trajectory mode: its reading
      parameters and its resizer. */
  predicate Prepared(s: Z.ZedState)
  {
    Z.Valid(s) && s.traj.Some? && s.resize.Some?
  }

  /** What it needs besides to record: an SDK camera. */
  predicate Opened(s: Z.ZedState)
  {
    Prepared(s) && s.opens > 0
  }

  // ---------------------------------------------------------------- reading

  /** What the SDK delivers to one camera's `read_camera`: the grabbed
      frame, or `None` when the grab fails, and the clock around it. */
  datatype Grab<M> = Grab(frame: Option<RecordedZed.Frame<M>>, readStart: int, readEnd: int)

  /** What `read_cameras` returns: the observations per modality and the
      timestamps. */
  datatype Observation<M> = Observation(data: RecordedZed.Data<M>, timestamps: map<string, int>)

  /** One camera's `read_camera`. */
  function CameraRead<M>(s: Z.ZedState, id: string, cv2Resize: (M, (int, int)) -> M, g: Grab<M>): Result<Option<Z.Reading<M>>>
  {
    Z.Read(s, id, cv2Resize, g.frame, g.readStart, g.readEnd)
  }

  /** `read_cameras` from the camera `order[0]` on, with `obs` and `ts`
      gathered so far: a camera that is not running is skipped; one whose
      grab fails returns `None`, which the unpacking turns into `TypeError`;
      every other reading is merged in. */
  function ReadAll<M>(states: map<string, Z.ZedState>, order: seq<string>, cv2Resize: (M, (int, int)) -> M,
                      grabs: string -> Grab<M>, obs: RecordedZed.Data<M>, ts: map<string, int>): (r: Result<Observation<M>>)
    decreases |order|
  {
    if order == [] then Ok(Observation(obs, ts))
    else
      var id := order[0];
      if id !in states then Err(KeyError)
      else if !Z.Running(states[id]) then ReadAll(states, order[1..], cv2Resize, grabs, obs, ts)
      else match CameraRead(states[id], id, cv2Resize, grabs(id))
        case Err(e) => Err(e)
        case Ok(None) => Err(TypeError)
        case Ok(Some(rd)) =>
          ReadAll(states, order[1..], cv2Resize, grabs, RecordedMultiCamera.MergeInto(obs, rd.data), ts + rd.timestamps)
  }

  /** The timestamp keys camera `id` contributes: those of its reading when
      it is running and reads, none otherwise. */
  function StampsOf<M>(states: map<string, Z.ZedState>, id: string, cv2Resize: (M, (int, int)) -> M, grabs: string -> Grab<M>): set<string>
  {
    if id in states && Z.Running(states[id]) then
      var rd := CameraRead(states[id], id, cv2Resize, grabs(id));
      if rd.Ok? && rd.value.Some? then rd.value.value.timestamps.Keys else {}
    else {}
  }

  /** A successful read contains every running camera's timestamps and
      image entries, and nothing but those and what was there before. */
  lemma {:induction false} ReadAllIsUnion<M>(states: map<string, Z.ZedState>, order: seq<string>, cv2Resize: (M, (int, int)) -> M,
                                             grabs: string -> Grab<M>, obs: RecordedZed.Data<M>, ts: map<string, int>)
    ensures var r := ReadAll(states, order, cv2Resize, grabs, obs, ts);
      r.Ok? ==>
        ts.Keys <= r.value.timestamps.Keys && obs.Keys <= r.value.data.Keys
        && (forall j :: 0 <= j < |order| ==> order[j] in states && StampsOf(states, order[j], cv2Resize, grabs) <= r.value.timestamps.Keys)
        && (forall j :: 0 <= j < |order| && Z.Running(states[order[j]]) ==>
              var rd := CameraRead(states[order[j]], order[j], cv2Resize, grabs(order[j]));
              rd.Ok? && rd.value.Some? && rd.value.value.data.Keys <= r.value.data.Keys)
        && (forall key :: key in r.value.timestamps ==>
              key in ts || exists j :: 0 <= j < |order| && key in StampsOf(states, order[j], cv2Resize, grabs))
    decreases |order|
  {
    if order != [] {
      var id := order[0];
      if id in states {
        var rest := order[1..];
        if !Z.Running(states[id]) {
          ReadAllIsUnion(states, rest, cv2Resize, grabs, obs, ts);
          ShiftIndices(order);
        } else {
          var rd := CameraRead(states[id], id, cv2Resize, grabs(id));
          if rd.Ok? && rd.value.Some? {
            var obs' := RecordedMultiCamera.MergeInto(obs, rd.value.value.data);
            RecordedMultiCamera.MergeIntoUpdates(obs, rd.value.value.data);
            ReadAllIsUnion(states, rest, cv2Resize, grabs, obs', ts + rd.value.value.timestamps);
            ShiftIndices(order);
          }
        }
      }
    }
  }

  lemma ShiftIndices(order: seq<string>)
    requires order != []
    ensures forall j :: 1 <= j < |order| ==> order[j] == order[1..][j - 1]
  {
  }

  /** `order` without the camera `id`. */
  function Without(order: seq<string>, id: string): (r: seq<string>)
    ensures id !in r && forall k :: k in r <==> k in order && k != id
  {
    if order == [] then []
    else if order[0] == id then Without(order[1..], id)
    else [order[0]] + Without(order[1..], id)
  }

  /** A camera that is not running is never read: taking it out of the
      order changes nothing. */
  lemma {:induction false} StoppedCameraIsSkipped<M>(states: map<string, Z.ZedState>, order: seq<string>, id: string,
                                                     cv2Resize: (M, (int, int)) -> M, grabs: string -> Grab<M>,
                                                     obs: RecordedZed.Data<M>, ts: map<string, int>)
    requires id in states && !Z.Running(states[id])
    ensures ReadAll(states, order, cv2Resize, grabs, obs, ts) == ReadAll(states, Without(order, id), cv2Resize, grabs, obs, ts)
    decreases |order|
  {
    if order != [] {
      var k := order[0];
      if k == id {
        StoppedCameraIsSkipped(states, order[1..], id, cv2Resize, grabs, obs, ts);
      } else if k in states && Z.Running(states[k]) {
        var rd := CameraRead(states[k], k, cv2Resize, grabs(k));
        if rd.Ok? && rd.value.Some? {
          StoppedCameraIsSkipped(states, order[1..], id, cv2Resize, grabs,
                                 RecordedMultiCamera.MergeInto(obs, rd.value.value.data), ts + rd.value.value.timestamps);
        }
      } else if k in states {
        StoppedCameraIsSkipped(states, order[1..], id, cv2Resize, grabs, obs, ts);
      }
      assert Without(order, id) == if k == id then Without(order[1..], id) else [k] + Without(order[1..], id);
    }
  }

  /** With every camera stopped, `read_cameras` returns what it started
      with. */
  lemma {:induction false} NothingRunningReadsNothing<M>(states: map<string, Z.ZedState>, order: seq<string>,
                                                         cv2Resize: (M, (int, int)) -> M, grabs: string -> Grab<M>,
                                                         obs: RecordedZed.Data<M>, ts: map<string, int>)
    requires forall k :: k in order ==> k in states && !Z.Running(states[k])
    ensures ReadAll(states, order, cv2Resize, grabs, obs, ts) == Ok(Observation(obs, ts))
    decreases |order|
  {
    if order != [] {
      assert order[0] in order;
      NothingRunningReadsNothing(states, order[1..], cv2Resize, grabs, obs, ts);
    }
  }

  /** The index of the first camera whose SDK refuses its recording file,
      or the number of cameras when none does. */
  function FirstRefused(ids: seq<string>, enableOk: string -> bool): (n: nat)
    ensures n <= |ids|
    ensures forall j :: 0 <= j < n ==> enableOk(ids[j])
    ensures n < |ids| ==> !enableOk(ids[n])
  {
    if ids == [] || !enableOk(ids[0]) then 0 else 1 + FirstRefused(ids[1..], enableOk)
  }

  /** Recording starts on every camera exactly when no SDK refuses its file. */
  lemma AllRecordIffNoneRefused(ids: seq<string>, enableOk: string -> bool)
    ensures FirstRefused(ids, enableOk) == |ids| <==> forall k :: k in ids ==> enableOk(k)
  {
    var n := FirstRefused(ids, enableOk);
    if n < |ids| {
      assert ids[n] in ids;
    } else {
      forall k | k in ids
        ensures enableOk(k)
      {
        var j :| 0 <= j < |ids| && ids[j] == k;
      }
    }
  }

  /** A camera's state once it records to its file in `folder`; recording
      leaves it configured and open. */
  function Recorded(s: Z.ZedState, folder: string, serial: string): (r: Z.ZedState)
    ensures r.recording == Some(RecordingPath(folder, serial))
    ensures Opened(s) ==> Opened(r)
  {
    s.(recording := Some(RecordingPath(folder, serial)))
  }

  /** An open camera records to its file exactly when the SDK accepts it. */
  lemma RecordOpened(s: Z.ZedState, folder: string, serial: string, ok: bool)
    requires Opened(s)
    ensures Z.Record(s, RecordingPath(folder, serial), ok)
         == if ok then Z.Step(Recorded(s, folder, serial), Ok(())) else Z.Step(s, Err(AssertionError))
  {
  }

  /** The cameras a loop over `ids` has visited after one more turn. */
  lemma PrefixGrows(ids: seq<string>, i: int)
    requires 0 <= i < |ids|
    ensures forall k :: k in ids[..i + 1] <==> k in ids[..i] || k == ids[i]
  {
    assert ids[..i + 1] == ids[..i] + [ids[i]];
  }

  // ---------------------------------------------------------------- the wrapper

  class MultiCameraWrapper<M> {
    var cameraDict: map<string, Z.ZedCamera<M>>
    /** The keys of `camera_dict` in insertion order. */
    var cameraIds: seq<string>
    /** The resize function every camera was built with. */
    const cv2Resize: (M, (int, int)) -> M

    /** Each camera is keyed by its serial number. */
    ghost predicate Valid()
      reads this
    {
      Indexed(cameraDict, cameraIds)
      && forall k :: k in cameraDict ==> cameraDict[k].serialNumber == k && cameraDict[k].cv2Resize == cv2Resize
    }

    /** Every camera is configured. */
    ghost predicate Configured()
      reads this, cameraDict.Values
    {
      forall k :: k in cameraDict ==> Prepared(cameraDict[k].State())
    }

    /** Every camera is configured and has an SDK camera. */
    ghost predicate Ready()
      reads this, cameraDict.Values
    {
      forall k :: k in cameraDict ==> Opened(cameraDict[k].State())
    }

    function Snapshot(): map<string, Z.ZedState>
      reads this, cameraDict.Values
    {
      map k | k in cameraDict :: cameraDict[k].State()
    }

    constructor(cameraDict: map<string, Z.ZedCamera<M>>, cameraIds: seq<string>, cv2Resize: (M, (int, int)) -> M)
      ensures this.cameraDict == cameraDict && this.cameraIds == cameraIds && this.cv2Resize == cv2Resize
    {
      this.cameraDict := cameraDict;
      this.cameraIds := cameraIds;
      this.cv2Resize := cv2Resize;
    }

    /** `set_trajectory_mode`: every camera switches, and none raises since
        every camera is configured. */
    method SetTrajectoryMode()
      requires Valid() && Configured()
      modifies cameraDict.Values
      ensures Ready()
      ensures forall k :: k in cameraDict ==>
        cameraDict[k].State() == Z.EnterTrajectory(old(cameraDict[k].State())).state
        && cameraDict[k].State().mode == ZedReader.Trajectory
    {
      var i := 0;
      while i < |cameraIds|
        invariant 0 <= i <= |cameraIds|
        invariant forall k :: k in cameraDict ==>
          cameraDict[k].State() == if k in cameraIds[..i] then Z.EnterTrajectory(old(cameraDict[k].State())).state
                                   else old(cameraDict[k].State())
      {
        var cam := cameraDict[cameraIds[i]];
        var r := cam.SetTrajectoryMode();
        assert r.Ok?;
        PrefixGrows(cameraIds, i);
        i := i + 1;
      }
      assert cameraIds[..i] == cameraIds;
    }

    /** `disable_cameras`. */
    method DisableCameras()
      requires Valid()
      modifies cameraDict.Values
      ensures forall k :: k in cameraDict ==> cameraDict[k].State() == Z.Disable(old(cameraDict[k].State()))
    {
      var i := 0;
      while i < |cameraIds|
        invariant 0 <= i <= |cameraIds|
        invariant forall k :: k in cameraDict ==>
          cameraDict[k].State() == if k in cameraIds[..i] then Z.Disable(old(cameraDict[k].State())) else old(cameraDict[k].State())
      {
        var cam := cameraDict[cameraIds[i]];
        cam.DisableCamera();
        PrefixGrows(cameraIds, i);
        i := i + 1;
      }
      assert cameraIds[..i] == cameraIds;
    }

    /** `set_calibration_mode(cam_id)`: every camera is disabled, then only
        `camId` is switched into calibration; an unknown id raises `KeyError`
        after the cameras were disabled. */
    method SetCalibrationMode(camId: string) returns (r: Result<()>)
      requires Valid() && Ready()
      modifies cameraDict.Values
      ensures Ready()
      ensures r.Err? <==> camId !in cameraDict
      ensures r.Err? ==> r.error == KeyError
      ensures forall k :: k in cameraDict ==>
        cameraDict[k].State() == if k == camId then Z.EnterCalibration(Z.Disable(old(cameraDict[k].State())))
                                 else Z.Disable(old(cameraDict[k].State()))
      ensures forall k :: k in cameraDict ==> (Z.Running(cameraDict[k].State()) <==> k == camId)
    {
      DisableCameras();
      if camId !in cameraDict {
        return Err(KeyError);
      }
      cameraDict[camId].SetCalibrationMode();
      return Ok(());
    }

    /** `start_recording`: each camera, in insertion order, records to its
        serial number plus '.svo' in the folder. The name always passes the
        reader's '.svo' check; the first camera whose SDK refuses the file
        raises and stops the loop, so exactly the cameras before it record. */
    method StartRecording(folder: string, enableOk: string -> bool) returns (r: Result<()>)
      requires Valid() && Ready()
      modifies cameraDict.Values
      ensures Ready()
      ensures r.Ok? <==> FirstRefused(cameraIds, enableOk) == |cameraIds|
      ensures r.Err? ==> r.error == AssertionError
      ensures forall k :: k in cameraDict ==>
        cameraDict[k].State() == if k in cameraIds[..FirstRefused(cameraIds, enableOk)]
                                 then Recorded(old(cameraDict[k].State()), folder, k)
                                 else old(cameraDict[k].State())
    {
      ghost var n := FirstRefused(cameraIds, enableOk);
      var i := 0;
      while i < |cameraIds|
        invariant 0 <= i <= n
        invariant forall k :: k in cameraDict ==>
          cameraDict[k].State() == if k in cameraIds[..i] then Recorded(old(cameraDict[k].State()), folder, k)
                                   else old(cameraDict[k].State())
      {
        var k := cameraIds[i];
        var cam := cameraDict[k];
        RecordOpened(cam.State(), folder, k, enableOk(k));
        var res := cam.StartRecording(RecordingPath(folder, k), enableOk(k));
        if res.Err? {
          assert i == n;
          return res;
        }
        PrefixGrows(cameraIds, i);
        i := i + 1;
      }
      return Ok(());
    }

    /** `stop_recording`. */
    method StopRecording()
      requires Valid() && Ready()
      modifies cameraDict.Values
      ensures Ready()
      ensures forall k :: k in cameraDict ==> cameraDict[k].State() == old(cameraDict[k].State()).(recording := None)
    {
      var i := 0;
      while i < |cameraIds|
        invariant 0 <= i <= |cameraIds|
        invariant forall k :: k in cameraDict ==>
          cameraDict[k].State() == if k in cameraIds[..i] then old(cameraDict[k].State()).(recording := None)
                                   else old(cameraDict[k].State())
      {
        var cam := cameraDict[cameraIds[i]];
        var res := cam.StopRecording();
        assert res.Ok?;
        PrefixGrows(cameraIds, i);
        i := i + 1;
      }
      assert cameraIds[..i] == cameraIds;
    }

    /** `read_cameras`, visiting the cameras in `order`, the shuffle that
        `random.shuffle` produced. Reading changes no camera. */
    method ReadCameras(order: seq<string>, grabs: string -> Grab<M>) returns (r: Result<Observation<M>>)
      requires Valid()
      ensures r == ReadAll(Snapshot(), order, cv2Resize, grabs, map[], map[])
    {
      ghost var states := Snapshot();
      var obs: RecordedZed.Data<M> := map[];
      var ts: map<string, int> := map[];
      var i := 0;
      while i < |order|
        invariant 0 <= i <= |order|
        invariant ReadAll(states, order, cv2Resize, grabs, map[], map[]) == ReadAll(states, order[i..], cv2Resize, grabs, obs, ts)
      {
        var id := order[i];
        assert order[i..][0] == id && order[i..][1..] == order[i + 1..];
        if id !in cameraDict {
          return Err(KeyError);
        }
        var cam := cameraDict[id];
        var running := cam.IsRunning();
        if running {
          var g := grabs(id);
          var res := cam.ReadCamera(g.frame, g.readStart, g.readEnd);
          if res.Err? {
            return Err(res.error);
          }
          if res.value.None? {
            return Err(TypeError);
          }
          obs := RecordedMultiCamera.MergeInto(obs, res.value.value.data);
          ts := ts + res.value.value.timestamps;
        }
        i := i + 1;
      }
      return Ok(Observation(obs, ts));
    }
  }
}
