/** The playback reader of r2d2/camera_utils/readers/recorded_zed_camera.py:
    a recorded SVO file read frame by frame, with the `_index` counter that
    `set_frame_index` drives forward by reading and discarding frames.

    The ZED SDK is modelled by the file's frames `svo`, whether opening the
    file succeeds, and a playback position: a grab succeeds exactly when the
    camera is open and the position is inside the file, and then moves the
    position on by one; `set_svo_position` sets it. */
module RecordedZed {
  import opened Wrappers

  /** The arguments of `set_reading_parameters`. */
  datatype Params = Params(image: bool, depth: bool, pointcloud: bool, concatenateImages: bool,
                           resolution: (int, int))

  /** The defaults, used for a camera type without keyword arguments. */
  const DefaultParams: Params := Params(true, false, false, false, (0, 0))

  /** `skip_reading`: nothing is requested. */
  predicate SkipReading(p: Params)
  {
    !(p.image || p.depth || p.pointcloud)
  }

  /** One recorded frame: its receive time in milliseconds and what the SDK
      retrieves from it. */
  datatype Frame<M> = Frame(receivedTime: int, sideBySide: M, left: M, right: M, leftDepth: M, rightDepth: M,
                            leftPointcloud: M, rightPointcloud: M)

  /** `_cam`: absent until a reading configuration opens the file; closed by
      `disable_camera` or by a failed open. */
  datatype Camera = NoCamera | Camera(open: bool)

  /** The reader's state: the reading parameters (absent before the first
      `set_reading_parameters`), `_index`, the SDK's playback position and
      the camera. */
  datatype ZedState = ZedState(params: Option<Params>, index: int, position: int, camera: Camera)

  /** Per modality, per image id, the data. */
  type Data<M> = map<string, map<string, M>>

  /** What `read_camera` leaves behind and returns: `Ok(None)` is Python's
      `None`, an exception is an `Err`. */
  datatype Step<M> = Step(state: ZedState, result: Result<Option<Data<M>>>)

  // ---------------------------------------------------------------- reading

  /** `set_reading_parameters`: a reading configuration opens the file from
      its start; a configuration that reads nothing opens nothing. `_index`
      is never reset. */
  function Configure(s: ZedState, p: Params, openOk: bool): (r: ZedState)
    ensures r.params == Some(p) && r.index == s.index
    ensures SkipReading(p) ==> r.camera == s.camera && r.position == s.position
    ensures !SkipReading(p) ==> r.camera == Camera(openOk) && r.position == 0
  {
    if SkipReading(p) then s.(params := Some(p))
    else ZedState(Some(p), s.index, 0, Camera(openOk))
  }

  predicate GrabOk<M>(svo: seq<Frame<M>>, s: ZedState)
  {
    s.camera == Camera(true) && 0 <= s.position < |svo|
  }

  /** The data dict of one frame, as written: the side-by-side branch reads
      the unbound name `svo_image` and raises `NameError`. */
  function DataDict<M>(p: Params, serial: string, f: Frame<M>): (r: Result<Data<M>>)
    ensures r.Err? <==> p.image && p.concatenateImages
    ensures r.Err? ==> r.error == NameError
    ensures r.Ok? ==> ("image" in r.value <==> p.image) && ("depth" in r.value <==> p.depth)
                      && ("pointcloud" in r.value <==> p.pointcloud)
  {
    if p.image && p.concatenateImages then Err(NameError)
    else Ok(Modalities(p, serial, f, map[serial + "_left" := f.left, serial + "_right" := f.right]))
  }

  /** The data dict as evidently intended: the side-by-side image is
      retrieved into `_sbs_img` and stored under the serial number alone. */
  function DataDictIntended<M>(p: Params, serial: string, f: Frame<M>): (r: Data<M>)
    ensures ("image" in r <==> p.image) && ("depth" in r <==> p.depth) && ("pointcloud" in r <==> p.pointcloud)
    ensures p.image && p.concatenateImages ==> r["image"] == map[serial := f.sideBySide]
    ensures p.image && !p.concatenateImages ==> r["image"] == map[serial + "_left" := f.left, serial + "_right" := f.right]
    ensures !(p.image && p.concatenateImages) ==> DataDict(p, serial, f) == Ok(r)
  {
    var images := if p.concatenateImages then map[serial := f.sideBySide]
                  else map[serial + "_left" := f.left, serial + "_right" := f.right];
    Modalities(p, serial, f, images)
  }

  function Modalities<M>(p: Params, serial: string, f: Frame<M>, images: map<string, M>): (r: Data<M>)
    ensures ("image" in r <==> p.image) && ("depth" in r <==> p.depth) && ("pointcloud" in r <==> p.pointcloud)
    ensures p.image ==> r["image"] == images
    ensures p.depth ==> r["depth"] == map[serial + "_left" := f.leftDepth, serial + "_right" := f.rightDepth]
    ensures p.pointcloud ==> r["pointcloud"] == map[serial + "_left" := f.leftPointcloud, serial + "_right" := f.rightPointcloud]
  {
    var withImage: Data<M> := if p.image then map["image" := images] else map[];
    var withDepth := if p.depth
      then withImage["depth" := map[serial + "_left" := f.leftDepth, serial + "_right" := f.rightDepth]]
      else withImage;
    if p.pointcloud
      then withDepth["pointcloud" := map[serial + "_left" := f.leftPointcloud, serial + "_right" := f.rightPointcloud]]
      else withDepth
  }

  /** `read_camera`: an unconfigured reader raises, a skipping one returns
      `{}` and changes nothing, any other read counts one frame whether or
      not the grab succeeds, and a discarded read returns `None`. */
  function ReadStep<M>(svo: seq<Frame<M>>, serial: string, s: ZedState, ignoreData: bool, timestamp: Option<int>): (r: Step<M>)
    ensures s.params.None? ==> r == Step(s, Err(AttributeError))
    ensures s.params.Some? && SkipReading(s.params.value) ==> r == Step(s, Ok(Some(map[])))
    ensures s.params.Some? && !SkipReading(s.params.value) ==>
      r.state.index == s.index + 1 && r.state.params == s.params && r.state.camera == s.camera
      && (ignoreData ==> r.result == Ok(None))
      && (!GrabOk(svo, s) ==> r.result == Ok(None) && r.state.position == s.position)
      && (GrabOk(svo, s) ==> r.state.position == s.position + 1)
  {
    if s.params.None? then Step(s, Err(AttributeError))
    else if SkipReading(s.params.value) then Step(s, Ok(Some(map[])))
    else
      var counted := s.(index := s.index + 1);
      if !GrabOk(svo, counted) then Step(counted, Ok(None))
      else
        var grabbed := counted.(position := counted.position + 1);
        var f := svo[counted.position];
        if ignoreData then Step(grabbed, Ok(None))
        else if timestamp.Some? && timestamp.value != f.receivedTime then Step(grabbed, Ok(None))
        else
          var d := DataDict(s.params.value, serial, f);
          if d.Err? then Step(grabbed, Err(d.error)) else Step(grabbed, Ok(Some(d.value)))
  }

  /** A read given a timestamp that differs from the frame's receive time
      returns `None`; one that matches returns the frame's data. */
  lemma TimestampMismatchIsNone<M>(svo: seq<Frame<M>>, serial: string, s: ZedState, t: int)
    requires s.params.Some? && !SkipReading(s.params.value) && GrabOk(svo, s)
    ensures t != svo[s.position].receivedTime ==> ReadStep(svo, serial, s, false, Some(t)).result == Ok(None)
    ensures t == svo[s.position].receivedTime && !(s.params.value.image && s.params.value.concatenateImages) ==>
      ReadStep(svo, serial, s, false, Some(t)).result == Ok(Some(DataDictIntended(s.params.value, serial, svo[s.position])))
  {
  }

  // ---------------------------------------------------------------- seeking

  /** `n` discarded reads. */
  function SeekSteps<M>(svo: seq<Frame<M>>, s: ZedState, n: nat): (r: ZedState)
    ensures r.index == s.index + n && r.params == s.params && r.camera == s.camera
  {
    if n == 0 then s
    else
      var before := SeekSteps(svo, s, n - 1);
      before.(index := before.index + 1, position := if GrabOk(svo, before) then before.position + 1 else before.position)
  }

  /** `set_frame_index`: a backward target repositions the playback
      directly; then frames are read and discarded until `_index` reaches
      the target. */
  function SetFrameIndexSpec<M>(svo: seq<Frame<M>>, s: ZedState, target: int): (r: Result<ZedState>)
    ensures s.params.None? <==> r.Err?
    ensures r.Err? ==> r.error == AttributeError
    ensures r.Ok? && SkipReading(s.params.value) ==> r.value == s
    ensures r.Ok? && !SkipReading(s.params.value) ==> r.value.index == target
    ensures r.Ok? ==> r.value.params == s.params && r.value.camera == s.camera
  {
    if s.params.None? then Err(AttributeError)
    else if SkipReading(s.params.value) then Ok(s)
    else
      var start := if target < s.index then s.(position := target, index := target) else s;
      Ok(SeekSteps(svo, start, target - start.index))
  }

  /** Reading forward from inside an open file moves the playback position
      by one per frame until the end of the file. */
  lemma {:induction false} SeekPosition<M>(svo: seq<Frame<M>>, s: ZedState, n: nat)
    requires s.camera == Camera(true) && 0 <= s.position <= |svo|
    ensures SeekSteps(svo, s, n).position == if s.position + n <= |svo| then s.position + n else |svo|
  {
    if n > 0 {
      SeekPosition(svo, s, n - 1);
    }
  }

  /** A forward seek in an open file that has the target frame leaves the
      playback position on the target, in step with `_index`. */
  lemma ForwardSeekKeepsPositionInStep<M>(svo: seq<Frame<M>>, s: ZedState, target: int)
    requires s.params.Some? && !SkipReading(s.params.value)
    requires s.camera == Camera(true) && 0 <= s.position == s.index <= target <= |svo|
    ensures SetFrameIndexSpec(svo, s, target) == Ok(s.(index := target, position := target))
  {
    SeekPosition(svo, s, target - s.index);
  }

  /** `disable_camera`'s effect: an opened camera is closed, nothing else
      changes. */
  function Disabled(s: ZedState): (r: ZedState)
    ensures r.camera.Camera? <==> s.camera.Camera?
    ensures r.camera != Camera(true)
    ensures r.params == s.params && r.index == s.index && r.position == s.position
  {
    if s.camera.Camera? then s.(camera := Camera(false)) else s
  }

  /** Once disabled, a reader that still reads gets `None` back. */
  lemma DisabledReadsNothing<M>(svo: seq<Frame<M>>, serial: string, s: ZedState, t: Option<int>)
    requires s.params.Some? && !SkipReading(s.params.value)
    ensures ReadStep(svo, serial, Disabled(s), false, t).result == Ok(None)
  {
  }

  // ---------------------------------------------------------------- the reader

  class RecordedZedCamera<M> {
    const filepath: string
    const serialNumber: string
    /** The recorded file, as the SDK plays it back. */
    const svo: seq<Frame<M>>
    /** Whether the SDK opens the file. */
    const openOk: bool

    var params: Option<Params>
    var index: int
    var position: int
    var camera: Camera

    function State(): ZedState
      reads this
    {
      ZedState(params, index, position, camera)
    }

    constructor(filepath: string, serialNumber: string, svo: seq<Frame<M>>, openOk: bool)
      ensures this.filepath == filepath && this.serialNumber == serialNumber
      ensures this.svo == svo && this.openOk == openOk
      ensures State() == ZedState(None, 0, 0, NoCamera)
    {
      this.filepath := filepath;
      this.serialNumber := serialNumber;
      this.svo := svo;
      this.openOk := openOk;
      params := None;
      index := 0;
      position := 0;
      camera := NoCamera;
    }

    method SetReadingParameters(p: Params)
      modifies this
      ensures State() == Configure(old(State()), p, openOk)
    {
      params := Some(p);
      if SkipReading(p) {
        return;
      }
      position := 0;
      camera := Camera(openOk);
    }

    /** `get_frame_count`: 0 while skipping, otherwise what the SDK reports:
        the file's length when the file is open, and -1 when it is not being
        played (the open failed, or `disable_camera` closed it). */
    method GetFrameCount() returns (r: Result<int>)
      ensures params.None? ==> r == Err(AttributeError)
      ensures params.Some? && SkipReading(params.value) ==> r == Ok(0)
      ensures params.Some? && !SkipReading(params.value) ==>
        r == Ok(if camera == Camera(true) then |svo| else -1)
    {
      if params.None? {
        return Err(AttributeError);
      }
      if SkipReading(params.value) {
        return Ok(0);
      }
      if camera != Camera(true) {
        return Ok(-1);
      }
      return Ok(|svo|);
    }

    method ReadCamera(ignoreData: bool, timestamp: Option<int>) returns (r: Result<Option<Data<M>>>)
      modifies this
      ensures State() == ReadStep(svo, serialNumber, old(State()), ignoreData, timestamp).state
      ensures r == ReadStep(svo, serialNumber, old(State()), ignoreData, timestamp).result
    {
      if params.None? {
        return Err(AttributeError);
      }
      if SkipReading(params.value) {
        return Ok(Some(map[]));
      }
      index := index + 1;
      if !GrabOk(svo, State()) {
        return Ok(None);
      }
      var f := svo[position];
      position := position + 1;
      if ignoreData {
        return Ok(None);
      }
      if timestamp.Some? && timestamp.value != f.receivedTime {
        return Ok(None);
      }
      var d := DataDict(params.value, serialNumber, f);
      if d.Err? {
        return Err(d.error);
      }
      return Ok(Some(d.value));
    }

    method SetFrameIndex(target: int) returns (r: Result<()>)
      modifies this
      ensures var spec := SetFrameIndexSpec(svo, old(State()), target);
        (spec.Err? ==> r == Err(spec.error) && State() == old(State()))
        && (spec.Ok? ==> r == Ok(()) && State() == spec.value)
    {
      if params.None? {
        return Err(AttributeError);
      }
      if SkipReading(params.value) {
        return Ok(());
      }
      if target < index {
        position := target;
        index := target;
      }
      ghost var start := State();
      while index < target
        invariant params == start.params
        invariant start.index <= index <= target || (index == start.index && target <= index)
        invariant State() == SeekSteps(svo, start, index - start.index)
        decreases target - index
      {
        var ignored := ReadCamera(true, None);
        assert State() == SeekSteps(svo, start, index - start.index);
      }
      return Ok(());
    }

    /** `disable_camera`: closes the camera if there is one. */
    method DisableCamera()
      modifies this
      ensures State() == Disabled(old(State()))
    {
      if camera.Camera? {
        camera := Camera(false);
      }
    }
  }
}
