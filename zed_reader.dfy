/** The live ZED reader of r2d2/camera_utils/readers/zed_camera.py: a camera
    switched between a high-resolution calibration mode and a fast
    trajectory mode, where every switch closes the open SDK camera before it
    opens a new one.

    The SDK is modelled by two counters, the cameras opened and the cameras
    closed, by whether `enable_recording` succeeds, and by the frame a grab
    returns (`None` when it fails). The clock readings of `time_ms` are
    parameters. */
module ZedReader {
  import opened Wrappers
  import PyStrings
  import RecordedZed

  /** `_current_mode`: `None` until the constructor sets the first mode. */
  datatype Mode = Unset | Calibration | Trajectory | Disabled

  /** The two modes that hold an open camera. */
  predicate Live(m: Mode)
  {
    m == Calibration || m == Trajectory
  }

  /** The frame rates of the two modes' `InitParameters`. */
  function Fps(m: Mode): (fps: int)
    requires Live(m)
    ensures fps > 0
  {
    if m == Calibration then 15 else 100
  }

  /** `_latency`: two and a half frame periods, in milliseconds. */
  function Latency(fps: int): (r: real)
    requires fps > 0
    ensures r * fps as real == 2500.0
    ensures r > 0.0
  {
    2500.0 / fps as real
  }

  /** The reader's state: the mode, `_latency`, how many SDK cameras it has
      opened and closed, and the file the SDK records to. */
  datatype ZedState = ZedState(mode: Mode, latency: real, opens: nat, closes: nat, recording: Option<string>)

  /** Before the first mode is set. `_latency` does not exist yet; 0.0
      stands for it and is never read. */
  const Fresh: ZedState := ZedState(Unset, 0.0, 0, 0, None)

  /** At most one SDK camera is open, exactly when the mode is a live one,
      and none has been opened before the first mode. */
  predicate Valid(s: ZedState)
  {
    s.closes <= s.opens <= s.closes + 1
    && (s.opens == s.closes + 1 <==> Live(s.mode))
    && (s.mode == Unset ==> s.opens == 0)
  }

  // ---------------------------------------------------------------- modes

  /** `disable_camera`: does nothing when already disabled; otherwise closes
      the camera if one was ever opened (which ends its recording). */
  function Disable(s: ZedState): (r: ZedState)
    ensures r.mode == Disabled
    ensures s.mode == Disabled ==> r == s
    ensures r.opens == s.opens && r.latency == s.latency
    ensures Valid(s) ==> Valid(r) && r.closes == r.opens
  {
    if s.mode == Disabled then s
    else if s.opens > 0 then s.(mode := Disabled, closes := s.closes + 1, recording := None)
    else s.(mode := Disabled)
  }

  /** `_configure_camera`: sets the latency, closes the old camera, then
      opens a new one, which records nothing. The caller sets the mode. */
  function Configure(s: ZedState, fps: int): (r: ZedState)
    requires fps > 0
    ensures r.latency == Latency(fps) && r.opens == s.opens + 1 && r.recording == None
    ensures Valid(s) ==> r.closes == s.opens
  {
    var d := Disable(s.(latency := Latency(fps)));
    d.(opens := d.opens + 1, recording := None)
  }

  /** `set_calibration_mode` and `set_trajectory_mode`: nothing happens when
      the camera is already in mode `m`; otherwise every camera opened so far
      is closed, a new one is opened at the mode's frame rate, and the mode
      becomes `m`. */
  function SetMode(s: ZedState, m: Mode): (r: ZedState)
    requires Live(m)
    ensures r.mode == m
    ensures s.mode == m ==> r == s
    ensures s.mode != m ==> r.latency == Latency(Fps(m)) && r.opens == s.opens + 1 && r.recording == None
    ensures Valid(s) ==> Valid(r)
    ensures Valid(s) && s.mode != m ==> r.closes == s.opens
  {
    if s.mode == m then s else Configure(s, Fps(m)).(mode := m)
  }

  /** `is_running`. */
  predicate Running(s: ZedState)
  {
    s.mode != Disabled
  }

  // ---------------------------------------------------------------- recording

  /** `start_recording`: the file must end in '.svo' and the SDK must accept
      it; either assertion failing raises and changes nothing. */
  function Record(s: ZedState, filename: string, enableOk: bool): (r: Result<ZedState>)
    ensures r.Ok? <==> PyStrings.EndsWith(filename, ".svo") && enableOk
    ensures r.Err? ==> r.error == AssertionError
    ensures r.Ok? ==> r.value.recording == Some(filename)
  {
    if !PyStrings.EndsWith(filename, ".svo") || !enableOk then Err(AssertionError)
    else Ok(s.(recording := Some(filename)))
  }

  /** The operations a caller can issue after construction. */
  datatype Command = SetCalibrationMode | SetTrajectoryMode | DisableCamera
                   | StartRecording(filename: string, enableOk: bool) | StopRecording

  function Apply(s: ZedState, c: Command): (r: ZedState)
  {
    match c
    case SetCalibrationMode => SetMode(s, Calibration)
    case SetTrajectoryMode => SetMode(s, Trajectory)
    case DisableCamera => Disable(s)
    case StartRecording(f, ok) =>
      var t := Record(s, f, ok);
      if t.Ok? then t.value else s
    case StopRecording => s.(recording := None)
  }

  function Run(s: ZedState, cs: seq<Command>): (r: ZedState)
    decreases |cs|
  {
    if cs == [] then s else Run(Apply(s, cs[0]), cs[1..])
  }

  /** Whatever the caller does, no two SDK cameras are ever open at once:
      reconfiguring always closes the previous camera first. */
  lemma {:induction false} NeverTwoCamerasOpen(s: ZedState, cs: seq<Command>)
    requires Valid(s)
    ensures Valid(Run(s, cs))
    ensures Run(s, cs).opens <= Run(s, cs).closes + 1
    decreases |cs|
  {
    if cs != [] {
      NeverTwoCamerasOpen(Apply(s, cs[0]), cs[1..]);
    }
  }

  // ---------------------------------------------------------------- reading

  /** What `read_camera` returns: the data per modality and the timestamps. */
  datatype Reading<M> = Reading(data: RecordedZed.Data<M>, timestamps: map<string, real>)

  /** `read_camera(image, depth, pointcloud)` given the frame the grab
      returns (`None` when it fails) and the clock at the start and end of
      the grab. */
  function Read<M>(serial: string, latency: real, image: bool, depth: bool, pointcloud: bool,
                   grab: Option<RecordedZed.Frame<M>>, readStart: int, readEnd: int): (r: Option<Reading<M>>)
    ensures r.None? <==> grab.None?
    ensures r.Some? ==>
      var ts := r.value.timestamps;
      ts.Keys == {serial + "_read_start", serial + "_read_end", serial + "_frame_received", serial + "_estimated_capture"}
      && ts[serial + "_read_start"] == readStart as real && ts[serial + "_read_end"] == readEnd as real
      && ts[serial + "_frame_received"] == grab.value.receivedTime as real
      && ts[serial + "_estimated_capture"] == ts[serial + "_frame_received"] - latency
    ensures r.Some? ==>
      var d := r.value.data;
      ("image" in d <==> image) && ("depth" in d <==> depth) && ("pointcloud" in d <==> pointcloud)
      && forall k :: k in d ==> d[k].Keys == {serial + "_left", serial + "_right"}
  {
    if grab.None? then None
    else
      var f := grab.value;
      var received := f.receivedTime as real;
      var ts := map[serial + "_read_start" := readStart as real, serial + "_read_end" := readEnd as real,
                    serial + "_frame_received" := received, serial + "_estimated_capture" := received - latency];
      var p := RecordedZed.Params(image, depth, pointcloud, false, (0, 0));
      Some(Reading(RecordedZed.Modalities(p, serial, f, map[serial + "_left" := f.left, serial + "_right" := f.right]), ts))
  }

  // ---------------------------------------------------------------- the reader

  class ZedCamera {
    const serialNumber: string

    var mode: Mode
    var latency: real
    var opens: nat
    var closes: nat
    var recording: Option<string>

    function State(): ZedState
      reads this
    {
      ZedState(mode, latency, opens, closes, recording)
    }

    /** The constructor ends in trajectory mode with one camera open. */
    constructor(serialNumber: string)
      ensures this.serialNumber == serialNumber
      ensures State() == SetMode(Fresh, Trajectory)
      ensures mode == Trajectory && Valid(State()) && opens == 1
    {
      this.serialNumber := serialNumber;
      mode := Unset;
      latency := 0.0;
      opens := 0;
      closes := 0;
      recording := None;
      new;
      SetTrajectoryMode();
    }

    method SetCalibrationMode()
      modifies this
      ensures State() == SetMode(old(State()), Calibration)
    {
      if mode == Calibration {
        return;
      }
      ConfigureCamera(Fps(Calibration));
      mode := Calibration;
    }

    method SetTrajectoryMode()
      modifies this
      ensures State() == SetMode(old(State()), Trajectory)
    {
      if mode == Trajectory {
        return;
      }
      ConfigureCamera(Fps(Trajectory));
      mode := Trajectory;
    }

    /** `_configure_camera`. */
    method ConfigureCamera(fps: int)
      requires fps > 0
      modifies this
      ensures State() == Configure(old(State()), fps)
    {
      latency := Latency(fps);
      DisableCamera();
      opens := opens + 1;
      recording := None;
    }

    method StartRecording(filename: string, enableOk: bool) returns (r: Result<()>)
      modifies this
      ensures var spec := Record(old(State()), filename, enableOk);
        (spec.Ok? ==> r == Ok(()) && State() == spec.value)
        && (spec.Err? ==> r == Err(spec.error) && State() == old(State()))
    {
      if !PyStrings.EndsWith(filename, ".svo") || !enableOk {
        return Err(AssertionError);
      }
      recording := Some(filename);
      return Ok(());
    }

    method StopRecording()
      modifies this
      ensures State() == old(State()).(recording := None)
    {
      recording := None;
    }

    /** `read_camera` changes nothing the model tracks. */
    method ReadCamera<M>(image: bool, depth: bool, pointcloud: bool, grab: Option<RecordedZed.Frame<M>>,
                         readStart: int, readEnd: int) returns (r: Option<Reading<M>>)
      ensures r == Read(serialNumber, latency, image, depth, pointcloud, grab, readStart, readEnd)
    {
      if grab.None? {
        return None;
      }
      var f := grab.value;
      var received := f.receivedTime as real;
      var ts := map[serialNumber + "_read_start" := readStart as real];
      ts := ts[serialNumber + "_read_end" := readEnd as real];
      ts := ts[serialNumber + "_frame_received" := received];
      ts := ts[serialNumber + "_estimated_capture" := received - latency];
      var p := RecordedZed.Params(image, depth, pointcloud, false, (0, 0));
      var d := RecordedZed.Modalities(p, serialNumber, f, map[serialNumber + "_left" := f.left, serialNumber + "_right" := f.right]);
      return Some(Reading(d, ts));
    }

    method DisableCamera()
      modifies this
      ensures State() == Disable(old(State()))
    {
      if mode == Disabled {
        return;
      }
      if opens > 0 {
        closes := closes + 1;
        recording := None;
      }
      mode := Disabled;
    }

    method IsRunning() returns (r: bool)
      ensures r <==> Running(State())
    {
      return mode != Disabled;
    }
  }
}
