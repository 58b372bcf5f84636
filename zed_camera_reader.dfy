/** The ZED reader of r2d2/camera_utils/camera_readers/zed_camera.py: the
    version with `set_reading_parameters`, an optional resizer and a
    side-by-side image, switched between calibration and trajectory modes.

    As written, both mode setters first read `_current_mode`, which no
    method assigns (the mode lives in `current_mode`), so they raise
    `AttributeError`; and were that guard corrected, they would assign
    `current_mode` before `_configure_camera`, whose `disable_camera` then
    overwrites it with 'disabled'. Both are modelled as written
    (`ModeSetterAsWritten`, `EnterTrajectoryAssignFirst`) and then
    corrected (`EnterCalibration`, `EnterTrajectory`), which the class
    uses: the guard reads `current_mode` and the mode is assigned once the
    new camera is open.

    The SDK is modelled as in `ZedReader`: counters of opened and closed
    cameras, whether `enable_recording` succeeds and the frame a grab
    returns. `cv2.resize` is an abstract function of a frame and a
    resolution. */
module ZedCameraReader {
  import opened Wrappers
  import PyStrings
  import RecordedZed
  import ZedReader

  /** `hand_camera_id` of r2d2/misc/parameters.py. */
  const HandCameraId: string := "19824535"

  /** The frame rates of the calibration and trajectory `InitParameters`. */
  const CalibrationFps: int := 15
  const TrajectoryFps: int := 60

  /** `latency`: two and a half frame periods in milliseconds, truncated to
      an integer by `int`. */
  function LatencyMs(fps: int): (r: int)
    requires fps > 0
    ensures r * fps <= 2500 < (r + 1) * fps
  {
    2500 / fps
  }

  /** The two modes' latencies. */
  lemma ModeLatencies()
    ensures LatencyMs(CalibrationFps) == 166 && LatencyMs(TrajectoryFps) == 41
  {
  }

  /** The entries of `resize_func_map`. */
  datatype Resizer = NoResize | Cv2Resize

  /** `resize_func_map[resize_func]`: only `None` and 'cv2' are keys. */
  function ResizeFuncMap(name: Option<string>): (r: Result<Resizer>)
    ensures name == None ==> r == Ok(NoResize)
    ensures name == Some("cv2") ==> r == Ok(Cv2Resize)
    ensures r.Err? <==> name.Some? && name.value != "cv2"
    ensures r.Err? ==> r.error == KeyError
  {
    match name
    case None => Ok(NoResize)
    case Some(n) => if n == "cv2" then Ok(Cv2Resize) else Err(KeyError)
  }

  /** The keyword arguments of `set_reading_parameters`. */
  datatype ReadingKwargs = ReadingKwargs(image: bool, depth: bool, pointcloud: bool, concatenateImages: bool,
                                         resolution: (int, int), resizeFunc: Option<string>)

  /** The defaults, which `**{}` passes. */
  const DefaultKwargs: ReadingKwargs := ReadingKwargs(true, false, false, false, (0, 0), None)

  /** `traj_image`, `traj_concatenate_images`, `traj_resolution`, `depth`
      and `pointcloud`, which `set_reading_parameters` assigns together. */
  datatype TrajParams = TrajParams(image: bool, concatenateImages: bool, resolution: (int, int),
                                   depth: bool, pointcloud: bool)

  /** `image`, `concatenate_images` and `skip_reading`, which the mode
      setters assign. */
  datatype View = View(image: bool, concatenateImages: bool, skipReading: bool)

  /** `zed_resolution` and `resizer_resolution`. */
  datatype Resolutions = Resolutions(zed: (int, int), resizer: (int, int))

  /** The reader's attributes; `None` is an attribute not assigned yet. */
  datatype ZedState = ZedState(mode: ZedReader.Mode, traj: Option<TrajParams>, resize: Option<Resizer>,
                               view: Option<View>, resolutions: Option<Resolutions>, latency: Option<int>,
                               opens: nat, closes: nat, recording: Option<string>)

  /** Right after the constructor: `current_mode` is `None`. */
  const Fresh: ZedState := ZedState(ZedReader.Unset, None, None, None, None, None, 0, 0, None)

  /** What an operation leaves behind and whether it raised. */
  datatype Step = Step(state: ZedState, result: Result<()>)

  /** At most one SDK camera is open, exactly in a live mode, and an opened
      camera comes with its latency and resolutions. */
  predicate Valid(s: ZedState)
  {
    Counted(s) && (s.opens > 0 ==> s.latency.Some? && s.resolutions.Some? && s.view.Some?)
  }

  /** The camera counters alone. */
  predicate Counted(s: ZedState)
  {
    s.closes <= s.opens <= s.closes + 1
    && (s.opens == s.closes + 1 <==> ZedReader.Live(s.mode))
    && (s.mode == ZedReader.Unset ==> s.opens == 0)
  }

  // ---------------------------------------------------------------- configuration

  /** `set_reading_parameters`: the trajectory parameters are stored first;
      an unknown `resize_func` then raises `KeyError` and leaves the old
      resizer. The mode and what it reads are untouched: the new values take
      effect at the next switch into trajectory mode. */
  function ConfigureReading(s: ZedState, k: ReadingKwargs): (r: Step)
    ensures r.state.traj == Some(TrajParams(k.image, k.concatenateImages, k.resolution, k.depth, k.pointcloud))
    ensures r.result.Ok? <==> ResizeFuncMap(k.resizeFunc).Ok?
    ensures r.result.Ok? ==> r.state.resize == Some(ResizeFuncMap(k.resizeFunc).value)
    ensures r.result.Err? ==> r.result.error == KeyError && r.state.resize == s.resize
    ensures r.state.mode == s.mode && r.state.view == s.view && r.state.resolutions == s.resolutions
    ensures r.state.latency == s.latency && r.state.opens == s.opens && r.state.closes == s.closes
    ensures Valid(s) ==> Valid(r.state)
  {
    var stored := s.(traj := Some(TrajParams(k.image, k.concatenateImages, k.resolution, k.depth, k.pointcloud)));
    match ResizeFuncMap(k.resizeFunc)
    case Ok(rz) => Step(stored.(resize := Some(rz)), Ok(()))
    case Err(e) => Step(stored, Err(e))
  }

  /** `disable_camera`: nothing when already disabled; otherwise the camera,
      if one was ever opened, is closed (ending its recording). */
  function Disable(s: ZedState): (r: ZedState)
    ensures r.mode == ZedReader.Disabled
    ensures s.mode == ZedReader.Disabled ==> r == s
    ensures r.opens == s.opens && r.traj == s.traj && r.resize == s.resize
    ensures Counted(s) ==> Counted(r) && r.closes == r.opens
    ensures Valid(s) ==> Valid(r)
  {
    if s.mode == ZedReader.Disabled then s
    else if s.opens > 0 then s.(mode := ZedReader.Disabled, closes := s.closes + 1, recording := None)
    else s.(mode := ZedReader.Disabled)
  }

  /** `_configure_camera`: the latency, then the old camera closed, then a
      new one opened. */
  function Configure(s: ZedState, fps: int): (r: ZedState)
    requires fps > 0
    ensures r.latency == Some(LatencyMs(fps)) && r.opens == s.opens + 1 && r.recording == None
    ensures r.mode == ZedReader.Disabled && r.view == s.view && r.resolutions == s.resolutions
    ensures r.traj == s.traj && r.resize == s.resize
    ensures Counted(s) ==> r.closes == s.opens
  {
    var d := Disable(s.(latency := Some(LatencyMs(fps))));
    d.(opens := d.opens + 1, recording := None)
  }

  /** `set_calibration_mode`, corrected: nothing when already calibrating;
      otherwise full-size images without resizing, the old camera closed and
      a new one opened at 15 frames per second. */
  function EnterCalibration(s: ZedState): (r: ZedState)
    ensures r.mode == ZedReader.Calibration
    ensures s.mode == ZedReader.Calibration ==> r == s
    ensures r.traj == s.traj && r.resize == s.resize && r.opens >= s.opens
    ensures s.mode != ZedReader.Calibration ==>
      r.view == Some(View(true, false, false)) && r.resolutions == Some(Resolutions((0, 0), (0, 0)))
      && r.latency == Some(LatencyMs(CalibrationFps)) && r.opens == s.opens + 1
    ensures Valid(s) ==> Valid(r)
    ensures Valid(s) && s.mode != ZedReader.Calibration ==> r.closes == s.opens
  {
    if s.mode == ZedReader.Calibration then s
    else
      var viewed := s.(view := Some(View(true, false, false)), resolutions := Some(Resolutions((0, 0), (0, 0))));
      Configure(viewed, CalibrationFps).(mode := ZedReader.Calibration)
  }

  /** Nothing is requested in trajectory mode. */
  predicate SkipReading(t: TrajParams)
  {
    !(t.image || t.depth || t.pointcloud)
  }

  /** The trajectory resolutions: without a resizer the SDK delivers the
      trajectory resolution; with one, the SDK delivers full frames and the
      resizer scales them. */
  function TrajectoryResolutions(t: TrajParams, rz: Resizer): (r: Resolutions)
    ensures rz == NoResize ==> r == Resolutions(t.resolution, (0, 0))
    ensures rz == Cv2Resize ==> r == Resolutions((0, 0), t.resolution)
  {
    if rz == NoResize then Resolutions(t.resolution, (0, 0)) else Resolutions((0, 0), t.resolution)
  }

  /** `set_trajectory_mode`, corrected: nothing when already in trajectory
      mode; it raises `AttributeError` when the reading parameters were never
      set, and after storing the view when the resizer is missing; otherwise
      it reads what the parameters request, closes the old camera and opens
      a new one at 60 frames per second. */
  function EnterTrajectory(s: ZedState): (r: Step)
    ensures s.mode == ZedReader.Trajectory ==> r == Step(s, Ok(()))
    ensures r.result.Ok? <==> s.mode == ZedReader.Trajectory || (s.traj.Some? && s.resize.Some?)
    ensures r.result.Err? ==> r.result.error == AttributeError && r.state.mode == s.mode
    ensures r.result.Ok? ==> r.state.mode == ZedReader.Trajectory
    ensures r.state.traj == s.traj && r.state.resize == s.resize && r.state.opens >= s.opens
    ensures s.mode != ZedReader.Trajectory && r.result.Ok? ==>
      var t := s.traj.value;
      r.state.view == Some(View(t.image, t.concatenateImages, SkipReading(t)))
      && r.state.resolutions == Some(TrajectoryResolutions(t, s.resize.value))
      && r.state.latency == Some(LatencyMs(TrajectoryFps)) && r.state.opens == s.opens + 1
    ensures Valid(s) && r.result.Ok? ==> Valid(r.state)
    ensures Valid(s) && s.mode != ZedReader.Trajectory && r.result.Ok? ==> r.state.closes == s.opens
  {
    if s.mode == ZedReader.Trajectory then Step(s, Ok(()))
    else if s.traj.None? then Step(s, Err(AttributeError))
    else
      var t := s.traj.value;
      var viewed := s.(view := Some(View(t.image, t.concatenateImages, SkipReading(t))));
      if s.resize.None? then Step(viewed, Err(AttributeError))
      else
        var sized := viewed.(resolutions := Some(TrajectoryResolutions(t, s.resize.value)));
        Step(Configure(sized, TrajectoryFps).(mode := ZedReader.Trajectory), Ok(()))
  }

  /** `is_running`: so a camera whose mode was never set reports running. */
  predicate Running(s: ZedState)
  {
    s.mode != ZedReader.Disabled
  }

  // ---------------------------------------------------------------- the mode setters as written

  /** Either mode setter as written: its guard reads `self._current_mode`,
      an attribute no method of the class assigns, so the call raises
      `AttributeError` before it changes anything. */
  function ModeSetterAsWritten(s: ZedState): (r: Step)
    ensures r.state == s && r.result == Err(AttributeError)
  {
    Step(s, Err(AttributeError))
  }

  /** `set_trajectory_mode` with only the guard corrected: `current_mode`
      is assigned before `_configure_camera`, whose `disable_camera` then
      overwrites it. */
  function EnterTrajectoryAssignFirst(s: ZedState): (r: Step)
  {
    if s.mode == ZedReader.Trajectory then Step(s, Ok(()))
    else if s.traj.None? then Step(s, Err(AttributeError))
    else
      var t := s.traj.value;
      var viewed := s.(view := Some(View(t.image, t.concatenateImages, SkipReading(t))), mode := ZedReader.Trajectory);
      if s.resize.None? then Step(viewed, Err(AttributeError))
      else
        var sized := viewed.(resolutions := Some(TrajectoryResolutions(t, s.resize.value)));
        Step(Configure(sized, TrajectoryFps), Ok(()))
  }

  /** A configured camera, as the multi-camera wrapper prepares each one. */
  function Configured(k: ReadingKwargs): (r: ZedState)
  {
    ConfigureReading(Fresh, k).state
  }

  /** As written, the first mode switch of a configured camera raises,
      where the corrected setter succeeds and leaves it running. */
  lemma ModeSetterRaisesWhereIntendedRuns()
    ensures ModeSetterAsWritten(Configured(DefaultKwargs)).result == Err(AttributeError)
    ensures EnterTrajectory(Configured(DefaultKwargs)).result == Ok(())
    ensures Running(EnterTrajectory(Configured(DefaultKwargs)).state)
    ensures Running(EnterCalibration(Configured(DefaultKwargs)))
  {
    var c := Configured(DefaultKwargs);
    assert c.traj.Some? && c.resize.Some?;
  }

  /** With the guard alone corrected, switching a configured camera into
      trajectory mode leaves it reporting 'disabled' with its new camera
      open, and `disable_camera` then never closes that camera. */
  lemma AssignFirstLeavesCameraOpenButDisabled()
    ensures var r := EnterTrajectoryAssignFirst(Configured(DefaultKwargs));
      r.result == Ok(()) && !Running(r.state) && r.state.opens == r.state.closes + 1
      && Disable(r.state).opens == Disable(r.state).closes + 1
  {
    var c := Configured(DefaultKwargs);
    assert c.traj.Some? && c.resize.Some? && c.opens == 0;
  }

  // ---------------------------------------------------------------- recording

  /** `start_recording`: the name must end in '.svo', there must be an SDK
      camera, and the SDK must accept the file. */
  function Record(s: ZedState, filename: string, enableOk: bool): (r: Step)
    ensures r.result.Ok? <==> PyStrings.EndsWith(filename, ".svo") && s.opens > 0 && enableOk
    ensures !PyStrings.EndsWith(filename, ".svo") ==> r.result == Err(AssertionError)
    ensures PyStrings.EndsWith(filename, ".svo") && s.opens == 0 ==> r.result == Err(AttributeError)
    ensures r.result.Ok? ==> r.state == s.(recording := Some(filename))
    ensures r.result.Err? ==> r.state == s
  {
    if !PyStrings.EndsWith(filename, ".svo") then Step(s, Err(AssertionError))
    else if s.opens == 0 then Step(s, Err(AttributeError))
    else if !enableOk then Step(s, Err(AssertionError))
    else Step(s.(recording := Some(filename)), Ok(()))
  }

  /** `stop_recording`. */
  function StopRecord(s: ZedState): (r: Step)
    ensures r.result.Ok? <==> s.opens > 0
    ensures r.result.Ok? ==> r.state == s.(recording := None)
    ensures r.result.Err? ==> r == Step(s, Err(AttributeError))
  {
    if s.opens == 0 then Step(s, Err(AttributeError)) else Step(s.(recording := None), Ok(()))
  }

  // ---------------------------------------------------------------- reading

  /** What `read_camera` returns: the data per modality and the timestamps
      in milliseconds. */
  datatype Reading<M> = Reading(data: RecordedZed.Data<M>, timestamps: map<string, int>)

  /** `_process_frame`: the frame itself when the resizer resolution is
      (0, 0), otherwise the resizer applied to it. */
  function ProcessFrame<M>(res: Resolutions, resize: Option<Resizer>, cv2Resize: (M, (int, int)) -> M, frame: M): (r: Result<M>)
    ensures res.resizer == (0, 0) ==> r == Ok(frame)
    ensures res.resizer != (0, 0) && resize == Some(Cv2Resize) ==> r == Ok(cv2Resize(frame, res.resizer))
    ensures r.Err? <==> res.resizer != (0, 0) && resize != Some(Cv2Resize)
  {
    if res.resizer == (0, 0) then Ok(frame)
    else match resize
      case None => Err(AttributeError)
      case Some(NoResize) => Err(TypeError)
      case Some(Cv2Resize) => Ok(cv2Resize(frame, res.resizer))
  }

  /** The image entry: one side-by-side image under the serial number, or a
      left and a right image. */
  function Images<M>(serial: string, concatenate: bool, res: Resolutions, resize: Option<Resizer>,
                     cv2Resize: (M, (int, int)) -> M, f: RecordedZed.Frame<M>): (r: Result<map<string, M>>)
    ensures r.Ok? && concatenate ==> r.value.Keys == {serial}
    ensures r.Ok? && !concatenate ==> r.value.Keys == {serial + "_left", serial + "_right"}
    ensures r.Err? <==> res.resizer != (0, 0) && resize != Some(Cv2Resize)
    ensures res.resizer == (0, 0) && concatenate ==> r == Ok(map[serial := f.sideBySide])
    ensures res.resizer == (0, 0) && !concatenate ==> r == Ok(map[serial + "_left" := f.left, serial + "_right" := f.right])
  {
    // Whether processing fails does not depend on the frame.
    var first := ProcessFrame(res, resize, cv2Resize, if concatenate then f.sideBySide else f.left);
    if first.Err? then Err(first.error)
    else if concatenate then Ok(map[serial := first.value])
    else Ok(map[serial + "_left" := first.value, serial + "_right" := ProcessFrame(res, resize, cv2Resize, f.right).value])
  }

  /** `read_camera` given the frame the grab returns (`None` when it fails)
      and the clock at the start and end of the grab: `({}, {})` when
      nothing is requested, `None` on a failed grab, and otherwise the four
      timestamps and at most the image entry (depth and point clouds are
      never returned). */
  function Read<M>(s: ZedState, serial: string, cv2Resize: (M, (int, int)) -> M,
                   grab: Option<RecordedZed.Frame<M>>, readStart: int, readEnd: int): (r: Result<Option<Reading<M>>>)
    ensures s.view.None? ==> r == Err(AttributeError)
    ensures s.view.Some? && s.view.value.skipReading ==> r == Ok(Some(Reading(map[], map[])))
    ensures Valid(s) && s.opens > 0 && !s.view.value.skipReading ==>
      (grab.None? <==> r == Ok(None)) && (r.Err? <==> grab.Some? && ImageFails(s))
    ensures r.Ok? && r.value.Some? && s.view.Some? && !s.view.value.skipReading ==>
      s.latency.Some? && grab.Some? &&
      var ts := r.value.value.timestamps;
      ts.Keys == {serial + "_read_start", serial + "_read_end", serial + "_frame_received", serial + "_estimated_capture"}
      && ts[serial + "_frame_received"] == grab.value.receivedTime
      && ts[serial + "_estimated_capture"] == grab.value.receivedTime - s.latency.value
    ensures r.Ok? && r.value.Some? ==> r.value.value.data.Keys <= {"image"}
    ensures r.Ok? && r.value.Some? && s.view.Some? && !s.view.value.skipReading ==> ("image" in r.value.value.data <==> s.view.value.image)
  {
    if s.view.None? then Err(AttributeError)
    else if s.view.value.skipReading then Ok(Some(Reading(map[], map[])))
    else if s.opens == 0 then Err(AttributeError)
    else if grab.None? then Ok(None)
    else if s.latency.None? || (s.view.value.image && s.resolutions.None?) then Err(AttributeError)
    else
      var f := grab.value;
      var ts := map[serial + "_read_start" := readStart, serial + "_read_end" := readEnd,
                    serial + "_frame_received" := f.receivedTime,
                    serial + "_estimated_capture" := f.receivedTime - s.latency.value];
      if !s.view.value.image then Ok(Some(Reading(map[], ts)))
      else
        var images :- Images(serial, s.view.value.concatenateImages, s.resolutions.value, s.resize, cv2Resize, f);
        Ok(Some(Reading(map["image" := images], ts)))
  }

  /** A successful grab still raises when images are requested, the
      frames need resizing and no resizer is set. */
  predicate ImageFails(s: ZedState)
    requires s.view.Some? && s.resolutions.Some?
  {
    s.view.value.image && s.resolutions.value.resizer != (0, 0) && s.resize != Some(Cv2Resize)
  }

  /** In trajectory mode, entered through the corrected setter, a reading
      never raises: the resizer needed is the one that was set. */
  lemma {:induction false} TrajectoryReadsNeverRaise<M>(s: ZedState, serial: string, cv2Resize: (M, (int, int)) -> M,
                                                        grab: Option<RecordedZed.Frame<M>>, readStart: int, readEnd: int)
    requires Valid(s) && s.mode != ZedReader.Trajectory && EnterTrajectory(s).result.Ok?
    ensures Read(EnterTrajectory(s).state, serial, cv2Resize, grab, readStart, readEnd).Ok?
  {
    var t := EnterTrajectory(s).state;
    assert t.view.Some? && t.resolutions.Some? && t.opens > 0;
    assert !ImageFails(t);
  }

  // ---------------------------------------------------------------- the reader

  class ZedCamera<M> {
    const serialNumber: string
    const isHandCamera: bool
    /** `cv2.resize`. */
    const cv2Resize: (M, (int, int)) -> M

    var mode: ZedReader.Mode
    var traj: Option<TrajParams>
    var resize: Option<Resizer>
    var view: Option<View>
    var resolutions: Option<Resolutions>
    var latency: Option<int>
    var opens: nat
    var closes: nat
    var recording: Option<string>

    function State(): ZedState
      reads this
    {
      ZedState(mode, traj, resize, view, resolutions, latency, opens, closes, recording)
    }

    constructor(serialNumber: string, cv2Resize: (M, (int, int)) -> M)
      ensures this.serialNumber == serialNumber && this.cv2Resize == cv2Resize
      ensures isHandCamera <==> serialNumber == HandCameraId
      ensures State() == Fresh
    {
      this.serialNumber := serialNumber;
      this.isHandCamera := serialNumber == HandCameraId;
      this.cv2Resize := cv2Resize;
      mode := ZedReader.Unset;
      traj := None;
      resize := None;
      view := None;
      resolutions := None;
      latency := None;
      opens := 0;
      closes := 0;
      recording := None;
    }

    method SetReadingParameters(k: ReadingKwargs) returns (r: Result<()>)
      modifies this
      ensures State() == ConfigureReading(old(State()), k).state
      ensures r == ConfigureReading(old(State()), k).result
    {
      traj := Some(TrajParams(k.image, k.concatenateImages, k.resolution, k.depth, k.pointcloud));
      var rz := ResizeFuncMap(k.resizeFunc);
      if rz.Err? {
        return Err(rz.error);
      }
      resize := Some(rz.value);
      return Ok(());
    }

    method SetCalibrationMode()
      modifies this
      ensures State() == EnterCalibration(old(State()))
    {
      if mode == ZedReader.Calibration {
        return;
      }
      view := Some(View(true, false, false));
      resolutions := Some(Resolutions((0, 0), (0, 0)));
      ConfigureCamera(CalibrationFps);
      mode := ZedReader.Calibration;
    }

    method SetTrajectoryMode() returns (r: Result<()>)
      modifies this
      ensures State() == EnterTrajectory(old(State())).state
      ensures r == EnterTrajectory(old(State())).result
    {
      if mode == ZedReader.Trajectory {
        return Ok(());
      }
      if traj.None? {
        return Err(AttributeError);
      }
      var t := traj.value;
      view := Some(View(t.image, t.concatenateImages, SkipReading(t)));
      if resize.None? {
        return Err(AttributeError);
      }
      resolutions := Some(TrajectoryResolutions(t, resize.value));
      ConfigureCamera(TrajectoryFps);
      mode := ZedReader.Trajectory;
      return Ok(());
    }

    /** `_configure_camera`. */
    method ConfigureCamera(fps: int)
      requires fps > 0
      modifies this
      ensures State() == Configure(old(State()), fps)
    {
      latency := Some(LatencyMs(fps));
      DisableCamera();
      opens := opens + 1;
      recording := None;
    }

    method StartRecording(filename: string, enableOk: bool) returns (r: Result<()>)
      modifies this
      ensures State() == Record(old(State()), filename, enableOk).state
      ensures r == Record(old(State()), filename, enableOk).result
    {
      if !PyStrings.EndsWith(filename, ".svo") {
        return Err(AssertionError);
      }
      if opens == 0 || !enableOk {
        return Err(if opens == 0 then AttributeError else AssertionError);
      }
      recording := Some(filename);
      return Ok(());
    }

    method StopRecording() returns (r: Result<()>)
      modifies this
      ensures State() == StopRecord(old(State())).state
      ensures r == StopRecord(old(State())).result
    {
      if opens == 0 {
        return Err(AttributeError);
      }
      recording := None;
      return Ok(());
    }

    /** `read_camera` changes nothing the model tracks. */
    method ReadCamera(grab: Option<RecordedZed.Frame<M>>, readStart: int, readEnd: int)
      returns (r: Result<Option<Reading<M>>>)
      ensures r == Read(State(), serialNumber, cv2Resize, grab, readStart, readEnd)
    {
      r := Read(State(), serialNumber, cv2Resize, grab, readStart, readEnd);
    }

    method DisableCamera()
      modifies this
      ensures State() == Disable(old(State()))
    {
      if mode == ZedReader.Disabled {
        return;
      }
      if opens > 0 {
        closes := closes + 1;
        recording := None;
      }
      mode := ZedReader.Disabled;
    }

    method IsRunning() returns (r: bool)
      ensures r <==> Running(State())
    {
      return mode != ZedReader.Disabled;
    }
  }
}
