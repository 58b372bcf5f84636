/** The RealSense reader of r2d2/camera_utils/camera_readers/realsense_camera.py:
    a camera switched between calibration and trajectory resolution, that
    returns colour and 8-bit depth images and, while recording, also writes
    them to two MP4 files.

    The pyrealsense2 pipeline is modelled by how many times it was started
    and stopped, the frames `wait_for_frames` returns are a parameter (on a
    pipeline that is not running it raises `RuntimeError`), and
    each OpenCV video writer by its file name, the frames written to it and
    whether it was released. */
module RealSense {
  import opened Wrappers
  import PyStrings
  import ZedReader
  import ZedCameraReader

  type Mode = ZedReader.Mode

  /** Both streams run at 30 frames per second. */
  const Fps: int := 30

  /** `latency`: two and a half frame periods, truncated to whole
      milliseconds. */
  lemma LatencyIs83()
    ensures ZedCameraReader.LatencyMs(Fps) == 83
  {
  }

  /** The colour stream's resolution in each mode; the depth stream is always
      640 by 480. */
  function ColorResolution(m: Mode): (r: (int, int))
    requires ZedReader.Live(m)
    ensures r.0 > 0 && r.1 > 0
  {
    if m == ZedReader.Calibration then (1920, 1080) else (640, 480)
  }

  /** What `set_reading_parameters` keeps: whether colour and depth images
      are read. The other parameters are accepted and dropped. */
  datatype ReadingParams = ReadingParams(image: bool, depth: bool)

  /** An OpenCV `VideoWriter`: its file, the frames written so far, and
      whether it was released (which saves the file). */
  datatype Writer<F> = Writer(filename: string, frames: seq<F>, released: bool)

  /** The reader's state. `params` is `None` until `set_reading_parameters`
      creates the `image` and `depth` attributes; `video` and `depthVideo`
      are `None` until `start_recording` creates the writers. */
  datatype RsState<M> = RsState(mode: Mode, params: Option<ReadingParams>, colorResolution: Option<(int, int)>,
                                starts: nat, stops: nat, recordingVideo: bool,
                                video: Option<Writer<M>>, depthVideo: Option<Writer<seq<int>>>)

  /** A new reader: no mode (`None`), no pipeline started, not recording. */
  function Fresh<M>(): (r: RsState<M>)
    ensures Valid(r) && r.mode == ZedReader.Unset && !r.recordingVideo
  {
    RsState(ZedReader.Unset, None, None, 0, 0, false, None, None)
  }

  /** At most one pipeline runs, exactly in the two live modes, none was
      started before the first mode, and while recording both writers
      exist and are open. */
  predicate Valid<M>(s: RsState<M>)
  {
    s.stops <= s.starts <= s.stops + 1
    && (s.starts == s.stops + 1 <==> ZedReader.Live(s.mode))
    && (s.mode == ZedReader.Unset ==> s.starts == 0)
    && (s.recordingVideo ==> s.video.Some? && s.depthVideo.Some? && !s.video.value.released
                             && !s.depthVideo.value.released)
  }

  // ---------------------------------------------------------------- modes

  /** `disable_camera`: stops the pipeline only in calibration or trajectory
      mode; from any other mode, including the unset one, nothing changes. */
  function Disable<M>(s: RsState<M>): (r: RsState<M>)
    ensures ZedReader.Live(s.mode) ==> r == s.(mode := ZedReader.Disabled, stops := s.stops + 1)
    ensures !ZedReader.Live(s.mode) ==> r == s
    ensures Valid(s) ==> Valid(r) && r.stops == r.starts
  {
    if ZedReader.Live(s.mode) then s.(mode := ZedReader.Disabled, stops := s.stops + 1) else s
  }

  /** `_configure_camera`: stops the running pipeline, then starts one with
      the colour stream at the given resolution. The caller sets the mode. */
  function Configure<M>(s: RsState<M>, resolution: (int, int)): (r: RsState<M>)
    ensures r.starts == s.starts + 1 && r.colorResolution == Some(resolution)
    ensures r.recordingVideo == s.recordingVideo && r.video == s.video && r.depthVideo == s.depthVideo
    ensures Valid(s) ==> r.stops == s.starts
  {
    var d := Disable(s);
    d.(starts := d.starts + 1, colorResolution := Some(resolution))
  }

  /** `set_calibration_mode` and `set_trajectory_mode`: unlike the ZED
      readers these always restart the pipeline, even when the camera is
      already in mode `m`. */
  function SetMode<M>(s: RsState<M>, m: Mode): (r: RsState<M>)
    requires ZedReader.Live(m)
    ensures r.mode == m && r.colorResolution == Some(ColorResolution(m))
    ensures r.starts == s.starts + 1
    ensures Valid(s) ==> Valid(r) && r.stops == s.starts
    ensures r.params == s.params && r.recordingVideo == s.recordingVideo
  {
    Configure(s, ColorResolution(m)).(mode := m)
  }

  /** `is_running`: anything but disabled, so a camera whose mode was never
      set reports running. */
  predicate Running<M>(s: RsState<M>)
  {
    s.mode != ZedReader.Disabled
  }

  /** A camera that was never configured reports running, and disabling it
      leaves it so: `disable_camera` ignores the unset mode. */
  lemma NeverConfiguredReportsRunning<M>()
    ensures Running(Fresh<M>())
    ensures Disable(Fresh<M>()) == Fresh<M>() && Running(Disable(Fresh<M>()))
  {
  }

  /** `disable_camera` is idempotent and, from a live mode, ends disabled. */
  lemma DisableIdempotent<M>(s: RsState<M>)
    ensures Disable(Disable(s)) == Disable(s)
    ensures ZedReader.Live(s.mode) ==> !Running(Disable(s))
  {
  }

  // ---------------------------------------------------------------- recording

  /** The depth file: the name up to its first '.mp4', then '_depth.mp4'. */
  function DepthFilename(filename: string): (r: string)
    ensures PyStrings.EndsWith(r, "_depth.mp4")
  {
    var head := PyStrings.Head(filename, ".mp4");
    assert (head + "_depth.mp4")[|head|..] == "_depth.mp4";
    head + "_depth.mp4"
  }

  /** When '.mp4' occurs only as the file's extension, the depth file sits
      beside the colour file: the same name with '_depth' before '.mp4'. */
  lemma DepthFileBesideColorFile(filename: string)
    requires PyStrings.EndsWith(filename, ".mp4")
    requires PyStrings.Find(filename, ".mp4") == |filename| - 4
    ensures DepthFilename(filename) == filename[..|filename| - 4] + "_depth.mp4"
  {
  }

  /** An earlier '.mp4' in the path cuts the name there: a colour file in a
      directory named 'a.mp4' writes its depth file as 'a_depth.mp4', outside
      that directory. */
  lemma EarlierExtensionCutsThePath()
    ensures DepthFilename("a.mp4/c.mp4") == "a_depth.mp4"
  {
    var path := "a.mp4/c.mp4";
    assert path[1..5] == ".mp4";
    assert path[0..4][0] == 'a';
    assert PyStrings.Find(path, ".mp4") == 1;
  }

  /** `start_recording`: the name must end in '.mp4'; a colour writer and a
      depth writer are opened (replacing any earlier ones) and recording
      starts. */
  function Record<M>(s: RsState<M>, filename: string): (r: Result<RsState<M>>)
    ensures r.Err? <==> !PyStrings.EndsWith(filename, ".mp4")
    ensures r.Err? ==> r.error == AssertionError
    ensures r.Ok? ==>
      (r.value.recordingVideo
       && r.value.video == Some(Writer(filename, [], false))
       && r.value.depthVideo == Some(Writer(DepthFilename(filename), [], false))
       && r.value.mode == s.mode && r.value.starts == s.starts && r.value.stops == s.stops)
    ensures r.Ok? && Valid(s) ==> Valid(r.value)
  {
    if !PyStrings.EndsWith(filename, ".mp4") then Err(AssertionError)
    else Ok(s.(video := Some(Writer(filename, [], false)),
               depthVideo := Some(Writer(DepthFilename(filename), [], false)),
               recordingVideo := true))
  }

  /** `stop_recording`: only while recording, releases both writers and
      clears the flag. */
  function StopRecord<M>(s: RsState<M>): (r: RsState<M>)
    requires Valid(s)
    ensures !r.recordingVideo && Valid(r)
    ensures !s.recordingVideo ==> r == s
    ensures s.recordingVideo ==>
      r.video == Some(s.video.value.(released := true)) && r.depthVideo == Some(s.depthVideo.value.(released := true))
      && r.video.value.frames == s.video.value.frames && r.depthVideo.value.frames == s.depthVideo.value.frames
  {
    if s.recordingVideo then
      s.(video := Some(s.video.value.(released := true)),
         depthVideo := Some(s.depthVideo.value.(released := true)),
         recordingVideo := false)
    else s
  }

  /** Stopping twice is stopping once. */
  lemma StopRecordingIdempotent<M>(s: RsState<M>)
    requires Valid(s)
    ensures StopRecord(StopRecord(s)) == StopRecord(s)
  {
  }

  // ---------------------------------------------------------------- depth

  /** One depth pixel, in millimetres from the 16-bit stream, as the byte
      `(x * 255 / 1000).clip(0, 255).astype(uint8)` gives: scaled, clipped
      to [0, 255] and truncated. */
  function DepthByte(x: int): (r: int)
    ensures 0 <= r <= 255
  {
    var y := x as real * 255.0 / 1000.0;
    var c := if y < 0.0 then 0.0 else if y > 255.0 then 255.0 else y;
    c.Floor
  }

  /** Zero stays zero and anything from 1000 mm on saturates at 255. */
  lemma DepthByteEnds(x: int)
    ensures DepthByte(0) == 0
    ensures x >= 1000 ==> DepthByte(x) == 255
  {
  }

  /** Farther is never darker: the mapping is monotone. */
  lemma DepthByteMonotone(x: int, y: int)
    requires x <= y
    ensures DepthByte(x) <= DepthByte(y)
  {
    var a := x as real * 255.0 / 1000.0;
    var b := y as real * 255.0 / 1000.0;
    assert a <= b;
  }

  /** The same mapping in integer arithmetic: `x * 255 / 1000` rounded down,
      capped at 255. */
  lemma {:induction false} DepthByteIsIntegerScale(x: int)
    requires 0 <= x
    ensures DepthByte(x) == if x * 255 / 1000 > 255 then 255 else x * 255 / 1000
  {
    var k := x * 255 / 1000;
    var y := x as real * 255.0 / 1000.0;
    assert k * 1000 <= x * 255 < (k + 1) * 1000;
    assert (k * 1000) as real <= (x * 255) as real < ((k + 1) * 1000) as real;
    assert y == (x * 255) as real / 1000.0;
    assert k as real <= y < k as real + 1.0;
    if y <= 255.0 {
      assert y.Floor == k;
    } else {
      assert k >= 255;
      if k == 255 {
        assert y < 256.0;
      }
    }
  }

  /** `depth_image` after conversion: every pixel mapped. */
  function ConvertDepth(raw: seq<int>): (r: seq<int>)
    ensures |r| == |raw| && forall i :: 0 <= i < |raw| ==> r[i] == DepthByte(raw[i])
  {
    seq(|raw|, i requires 0 <= i < |raw| => DepthByte(raw[i]))
  }

  // ---------------------------------------------------------------- reading

  /** What `wait_for_frames` returns: a colour image and the raw 16-bit
      depth image. */
  datatype Frames<M> = Frames(color: M, depth: seq<int>)

  /** A value of `data_dict`: a colour image or an 8-bit depth image. */
  datatype Image<M> = Color(color: M) | Depth(pixels: seq<int>)

  datatype Reading<M> = Reading(data: map<string, map<string, Image<M>>>, timestamps: map<string, int>)

  /** Whether a started pipeline has not been stopped since. */
  predicate PipelineRunning<M>(s: RsState<M>)
  {
    s.starts == s.stops + 1
  }

  /** `read_camera` given the frames and the clock before and after waiting
      for them. Waiting on a pipeline that is not running (never started, or
      disabled) raises `RuntimeError`. Without reading parameters the `image`
      attribute is missing and the read raises `AttributeError` after the
      wait. While recording, each image returned is also appended to its
      video file. */
  function Read<M>(s: RsState<M>, serial: string, frames: Frames<M>, readStart: int, readEnd: int)
    : (r: Result<(Reading<M>, RsState<M>)>)
    requires Valid(s)
    ensures r.Err? <==> !PipelineRunning(s) || s.params.None?
    ensures !PipelineRunning(s) ==> r == Err(RuntimeError)
    ensures PipelineRunning(s) && s.params.None? ==> r == Err(AttributeError)
    ensures r.Ok? ==> ZedReader.Live(s.mode)
    ensures r.Ok? ==>
      var (rd, t) := r.value;
      rd.timestamps == map[serial + "_read_start" := readStart, serial + "_read_end" := readEnd]
      && ("image" in rd.data <==> s.params.value.image) && ("depth" in rd.data <==> s.params.value.depth)
      && ("image" in rd.data ==> rd.data["image"] == map[serial := Color(frames.color)])
      && ("depth" in rd.data ==> rd.data["depth"] == map[serial := Depth(ConvertDepth(frames.depth))])
      && Valid(t)
  {
    if !PipelineRunning(s) then Err(RuntimeError)
    else if s.params.None? then Err(AttributeError)
    else
      var p := s.params.value;
      var ts := map[serial + "_read_start" := readStart, serial + "_read_end" := readEnd];
      var d0: map<string, map<string, Image<M>>> := map[];
      var d1 := if p.image then d0["image" := map[serial := Color(frames.color)]] else d0;
      var t1 := if p.image && s.recordingVideo
                then s.(video := Some(s.video.value.(frames := s.video.value.frames + [frames.color])))
                else s;
      var depth := ConvertDepth(frames.depth);
      var d2 := if p.depth then d1["depth" := map[serial := Depth(depth)]] else d1;
      var t2 := if p.depth && s.recordingVideo
                then t1.(depthVideo := Some(t1.depthVideo.value.(frames := t1.depthVideo.value.frames + [depth])))
                else t1;
      Ok((Reading(d2, ts), t2))
  }

  /** Frames reach the video files only while recording: otherwise a read
      changes nothing; while recording, each writer gains exactly the image
      returned for its modality, and nothing else changes. */
  lemma {:induction false} FramesWrittenOnlyWhileRecording<M>(s: RsState<M>, serial: string, frames: Frames<M>,
                                                               readStart: int, readEnd: int)
    requires Valid(s) && PipelineRunning(s) && s.params.Some?
    ensures var t := Read(s, serial, frames, readStart, readEnd).value.1;
      t.mode == s.mode && t.starts == s.starts && t.stops == s.stops && t.recordingVideo == s.recordingVideo
      && (!s.recordingVideo ==> t == s)
      && (s.recordingVideo ==>
            t.video.value == s.video.value.(frames := s.video.value.frames
                                              + (if s.params.value.image then [frames.color] else []))
            && t.depthVideo.value == s.depthVideo.value.(frames := s.depthVideo.value.frames
                                              + (if s.params.value.depth then [ConvertDepth(frames.depth)] else [])))
  {
    if s.recordingVideo {
      assert s.video.value.frames + [] == s.video.value.frames;
      assert s.depthVideo.value.frames + [] == s.depthVideo.value.frames;
    }
  }

  // ---------------------------------------------------------------- sequences of calls

  /** The operations a caller can issue. */
  datatype Command = SetReadingParameters(image: bool, depth: bool) | SetCalibrationMode | SetTrajectoryMode
                   | DisableCamera | StartRecording(filename: string) | StopRecording

  function Apply<M>(s: RsState<M>, c: Command): (r: RsState<M>)
    requires Valid(s)
  {
    match c
    case SetReadingParameters(image, depth) => s.(params := Some(ReadingParams(image, depth)))
    case SetCalibrationMode => SetMode(s, ZedReader.Calibration)
    case SetTrajectoryMode => SetMode(s, ZedReader.Trajectory)
    case DisableCamera => Disable(s)
    case StartRecording(f) =>
      var t := Record(s, f);
      if t.Ok? then t.value else s
    case StopRecording => StopRecord(s)
  }

  function Run<M>(s: RsState<M>, cs: seq<Command>): (r: RsState<M>)
    requires Valid(s)
    decreases |cs|
  {
    if cs == [] then s
    else
      ApplyKeepsValid(s, cs[0]);
      Run(Apply(s, cs[0]), cs[1..])
  }

  lemma ApplyKeepsValid<M>(s: RsState<M>, c: Command)
    requires Valid(s)
    ensures Valid(Apply(s, c))
  {
  }

  /** Whatever the caller does, no two pipelines ever run at once, and
      recording always has both writers open. */
  lemma {:induction false} NeverTwoPipelines<M>(s: RsState<M>, cs: seq<Command>)
    requires Valid(s)
    ensures Valid(Run(s, cs))
    ensures Run(s, cs).starts <= Run(s, cs).stops + 1
    decreases |cs|
  {
    if cs != [] {
      ApplyKeepsValid(s, cs[0]);
      NeverTwoPipelines(Apply(s, cs[0]), cs[1..]);
    }
  }

  // ---------------------------------------------------------------- the reader

  class RealSenseCamera<M> {
    const serialNumber: string

    var mode: Mode
    var params: Option<ReadingParams>
    var colorResolution: Option<(int, int)>
    var starts: nat
    var stops: nat
    var recordingVideo: bool
    var video: Option<Writer<M>>
    var depthVideo: Option<Writer<seq<int>>>

    function State(): RsState<M>
      reads this
    {
      RsState(mode, params, colorResolution, starts, stops, recordingVideo, video, depthVideo)
    }

    constructor(serialNumber: string)
      ensures this.serialNumber == serialNumber && State() == Fresh()
    {
      this.serialNumber := serialNumber;
      mode := ZedReader.Unset;
      params := None;
      colorResolution := None;
      starts := 0;
      stops := 0;
      recordingVideo := false;
      video := None;
      depthVideo := None;
    }

    /** `set_reading_parameters`: only `image` and `depth` are kept. */
    method SetReadingParameters(image: bool, depth: bool, pointcloud: bool, concatenateImages: bool,
                                resolution: (int, int))
      modifies this
      ensures State() == old(State()).(params := Some(ReadingParams(image, depth)))
    {
      params := Some(ReadingParams(image, depth));
    }

    method SetCalibrationMode()
      modifies this
      ensures State() == SetMode(old(State()), ZedReader.Calibration)
    {
      ConfigureCamera(1920, 1080);
      mode := ZedReader.Calibration;
    }

    method SetTrajectoryMode()
      modifies this
      ensures State() == SetMode(old(State()), ZedReader.Trajectory)
    {
      ConfigureCamera(640, 480);
      mode := ZedReader.Trajectory;
    }

    /** `_configure_camera`. */
    method ConfigureCamera(imageWidth: int, imageHeight: int)
      modifies this
      ensures State() == Configure(old(State()), (imageWidth, imageHeight))
    {
      DisableCamera();
      colorResolution := Some((imageWidth, imageHeight));
      starts := starts + 1;
    }

    method StartRecording(filename: string) returns (r: Result<()>)
      modifies this
      ensures var spec := Record(old(State()), filename);
        (spec.Ok? ==> r == Ok(()) && State() == spec.value)
        && (spec.Err? ==> r == Err(spec.error) && State() == old(State()))
    {
      if !PyStrings.EndsWith(filename, ".mp4") {
        return Err(AssertionError);
      }
      video := Some(Writer(filename, [], false));
      var depthFilename := PyStrings.Head(filename, ".mp4") + "_depth.mp4";
      depthVideo := Some(Writer(depthFilename, [], false));
      recordingVideo := true;
      return Ok(());
    }

    method StopRecording()
      requires Valid(State())
      modifies this
      ensures State() == StopRecord(old(State()))
    {
      if recordingVideo {
        video := Some(video.value.(released := true));
        depthVideo := Some(depthVideo.value.(released := true));
        recordingVideo := false;
      }
    }

    /** `read_camera`, given what `wait_for_frames` returns and the clock
        around it. */
    method ReadCamera(frames: Frames<M>, readStart: int, readEnd: int) returns (r: Result<Reading<M>>)
      requires Valid(State())
      modifies this
      ensures var spec := Read(old(State()), serialNumber, frames, readStart, readEnd);
        (spec.Ok? ==> r == Ok(spec.value.0) && State() == spec.value.1)
        && (spec.Err? ==> r == Err(spec.error) && State() == old(State()))
    {
      var data: map<string, map<string, Image<M>>> := map[];
      var ts := map[serialNumber + "_read_start" := readStart];
      if starts != stops + 1 {
        return Err(RuntimeError);
      }
      ts := ts[serialNumber + "_read_end" := readEnd];
      if params.None? {
        return Err(AttributeError);
      }
      if params.value.image {
        data := data["image" := map[serialNumber := Color(frames.color)]];
        if recordingVideo {
          video := Some(video.value.(frames := video.value.frames + [frames.color]));
        }
      }
      if params.value.depth {
        var depthImage := ConvertDepth(frames.depth);
        data := data["depth" := map[serialNumber := Depth(depthImage)]];
        if recordingVideo {
          depthVideo := Some(depthVideo.value.(frames := depthVideo.value.frames + [depthImage]));
        }
      }
      return Ok(Reading(data, ts));
    }

    method DisableCamera()
      modifies this
      ensures State() == Disable(old(State()))
    {
      if ZedReader.Live(mode) {
        stops := stops + 1;
        mode := ZedReader.Disabled;
      }
    }

    method IsRunning() returns (r: bool)
      ensures r <==> Running(State())
    {
      return mode != ZedReader.Disabled;
    }
  }

  /** `gather_realsense_cameras`: one new reader per connected device, in
      the order the context lists them. */
  method GatherRealSenseCameras<M>(devices: seq<string>) returns (cams: seq<RealSenseCamera<M>>)
    ensures |cams| == |devices|
    ensures forall i :: 0 <= i < |cams| ==> fresh(cams[i])
    ensures forall i :: 0 <= i < |cams| ==> cams[i].serialNumber == devices[i] && cams[i].State() == Fresh()
  {
    cams := [];
    var i := 0;
    while i < |devices|
      invariant 0 <= i <= |devices| && |cams| == i
      invariant forall j :: 0 <= j < i ==> fresh(cams[j])
      invariant forall j :: 0 <= j < i ==> cams[j].serialNumber == devices[j] && cams[j].State() == Fresh()
    {
      var cam := new RealSenseCamera(devices[i]);
      cams := cams + [cam];
      i := i + 1;
    }
  }
}
