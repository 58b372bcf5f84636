/** The playback wrapper of
    r2d2/camera_utils/wrappers/recorded_multi_camera_wrapper.py: one
    `RecordedZedCamera` per recorded file, keyed by the serial number in the
    file name, read together into one observation dict. The directory
    listing, the shuffle of the read order and the camera-type lookup (a
    module that is not part of this model) are inputs. */
module RecordedMultiCamera {
  import opened Wrappers
  import opened RecordedZed

  // ---------------------------------------------------------------- serial numbers

  /** `f.split('/')[-1]`: what follows the last '/'. */
  function LastComponent(f: string): string
  {
    if f == [] then []
    else if f[|f| - 1] == '/' then []
    else LastComponent(f[..|f| - 1]) + [f[|f| - 1]]
  }

  /** The last component is the '/'-free tail of the path, the whole path
      or the part after a '/'. */
  lemma {:induction false} LastComponentIsTail(f: string)
    ensures var r := LastComponent(f);
      '/' !in r && |r| <= |f| && f[|f| - |r|..] == r
      && (|r| < |f| ==> f[|f| - |r| - 1] == '/')
  {
    if f != [] && f[|f| - 1] != '/' {
      var init := f[..|f| - 1];
      LastComponentIsTail(init);
      var r := LastComponent(f);
      assert |r| == |LastComponent(init)| + 1;
      assert f[|f| - |r|..] == init[|init| - |LastComponent(init)|..] + [f[|f| - 1]];
    }
  }

  /** Python's `c[:-4]`: all but the last four characters, or nothing. */
  function DropLast4(c: string): (r: string)
    ensures |c| >= 4 ==> r + c[|c| - 4..] == c
    ensures |c| < 4 ==> r == []
  {
    if |c| >= 4 then c[..|c| - 4] else []
  }

  /** The serial number a recording's file name gives. */
  function SerialFromPath(f: string): string
  {
    DropLast4(LastComponent(f))
  }

  /** The last component of a path that ends in a '/'-free name is that
      name. */
  lemma {:induction false} LastComponentOfName(folder: string, name: string)
    requires '/' !in name
    ensures LastComponent(folder + "/" + name) == name
    decreases |name|
  {
    var f := folder + "/" + name;
    if name != [] {
      assert f[..|f| - 1] == folder + "/" + name[..|name| - 1];
      LastComponentOfName(folder, name[..|name| - 1]);
      assert name == name[..|name| - 1] + [name[|name| - 1]];
    }
  }

  /** A recording saved as folder/serial.svo gives back its serial
      number. */
  lemma SerialOfRecording(folder: string, serial: string)
    requires '/' !in serial
    ensures SerialFromPath(folder + "/" + serial + ".svo") == serial
  {
    assert folder + "/" + serial + ".svo" == folder + "/" + (serial + ".svo");
    LastComponentOfName(folder, serial + ".svo");
    assert (serial + ".svo")[..|serial|] == serial;
  }

  /** The keyword arguments for a camera type: `camera_kwargs.get(cam_type,
      {})`, where a missing entry means the defaults. */
  function ParamsFor(kwargs: map<string, Params>, camType: Option<string>): (p: Params)
    ensures camType.Some? && camType.value in kwargs ==> p == kwargs[camType.value]
    ensures !(camType.Some? && camType.value in kwargs) ==> p == DefaultParams
  {
    if camType.Some? && camType.value in kwargs then kwargs[camType.value] else DefaultParams
  }

  // ---------------------------------------------------------------- merging

  /** `full_obs_dict[key].update(data_dict[key])` for every key. */
  function MergeInto<M>(full: Data<M>, d: Data<M>): Data<M>
  {
    map k | k in full.Keys + d.Keys :: (if k in full then full[k] else map[]) + (if k in d then d[k] else map[])
  }

  /** Merging keeps every modality already there, adds the new ones, and
      within a modality lets the newer reading win. */
  lemma MergeIntoUpdates<M>(full: Data<M>, d: Data<M>)
    ensures MergeInto(full, d).Keys == full.Keys + d.Keys
    ensures forall k :: k in d ==> MergeInto(full, d)[k] == (if k in full then full[k] else map[]) + d[k]
    ensures forall k :: k in full && k !in d ==> MergeInto(full, d)[k] == full[k]
  {
  }

  /** An empty reading contributes nothing. */
  lemma MergeEmpty<M>(full: Data<M>)
    ensures MergeInto(full, map[]) == full
  {
    var m := MergeInto(full, map[]);
    assert m.Keys == full.Keys;
    forall k | k in full
      ensures m[k] == full[k]
    {
      assert m[k] == full[k] + map[];
    }
  }

  /** The timestamp a camera is checked against:
      `timestamp_dict.get(cam_id + '_frame_received', None)`. */
  function TimestampFor(timestamps: map<string, int>, camId: string): (t: Option<int>)
    ensures t.Some? <==> camId + "_frame_received" in timestamps
    ensures t.Some? ==> t.value == timestamps[camId + "_frame_received"]
  {
    if camId + "_frame_received" in timestamps then Some(timestamps[camId + "_frame_received"]) else None
  }

  /** One camera's part of `read_cameras`: an optional seek, then a read. */
  function CameraOutcome<M>(cam: RecordedZedCamera<M>, s: ZedState, index: Option<int>, t: Option<int>): (r: Step<M>)
    ensures s.params.None? ==> r == Step(s, Err(AttributeError))
    ensures s.params.Some? && SkipReading(s.params.value) ==> r == Step(s, Ok(Some(map[])))
    ensures s.params.Some? && !SkipReading(s.params.value) ==>
      r.state.index == (if index.Some? then index.value else s.index) + 1
    ensures r.state.params == s.params
  {
    if index.None? then ReadStep(cam.svo, cam.serialNumber, s, false, t)
    else
      var seek := SetFrameIndexSpec(cam.svo, s, index.value);
      if seek.Err? then Step(s, Err(seek.error))
      else ReadStep(cam.svo, cam.serialNumber, seek.value, false, t)
  }

  datatype Outcome<M> = Outcome(states: map<string, ZedState>, result: Result<Option<Data<M>>>)

  /** The cameras read in `order`, stopping at the first exception or the
      first `None`, the data merged as it arrives into `full`. An id with no
      camera raises `KeyError`, as indexing `camera_dict` would. */
  function ReadAll<M>(cams: map<string, RecordedZedCamera<M>>, states: map<string, ZedState>, order: seq<string>,
                      index: Option<int>, timestamps: map<string, int>, full: Data<M>): (r: Outcome<M>)
    ensures r.states.Keys == states.Keys
    decreases |order|
  {
    if order == [] then Outcome(states, Ok(Some(full)))
    else if order[0] !in cams || order[0] !in states then Outcome(states, Err(KeyError))
    else
      var k := order[0];
      var o := CameraOutcome(cams[k], states[k], index, TimestampFor(timestamps, k));
      var next := states[k := o.state];
      if o.result.Err? then Outcome(next, Err(o.result.error))
      else if o.result.value.None? then Outcome(next, Ok(None))
      else ReadAll(cams, next, order[1..], index, timestamps, MergeInto(full, o.result.value.value))
  }

  ghost predicate Distinct(order: seq<string>)
  {
    forall i, j :: 0 <= i < j < |order| ==> order[i] != order[j]
  }

  /** A read touches only the cameras in its order. */
  lemma {:induction false} ReadAllFrame<M>(cams: map<string, RecordedZedCamera<M>>, states: map<string, ZedState>,
      order: seq<string>, index: Option<int>, timestamps: map<string, int>, full: Data<M>)
    requires forall i :: 0 <= i < |order| ==> order[i] in cams && order[i] in states
    ensures forall k :: k in states && k !in order ==> ReadAll(cams, states, order, index, timestamps, full).states[k] == states[k]
    decreases |order|
  {
    if order != [] {
      var k := order[0];
      var o := CameraOutcome(cams[k], states[k], index, TimestampFor(timestamps, k));
      var next := states[k := o.state];
      if o.result.Ok? && o.result.value.Some? {
        ReadAllFrame(cams, next, order[1..], index, timestamps, MergeInto(full, o.result.value.value));
        forall j | j in states && j !in order
          ensures j !in order[1..]
        {
        }
      }
    }
  }

  /** Camera state `s` became `s'` in a read at `index`: it was configured,
      and it stayed put if it skips reading, otherwise it now stands one
      frame past `index`. */
  ghost predicate ReadAt(s: ZedState, s': ZedState, index: Option<int>)
  {
    s.params.Some?
    && (SkipReading(s.params.value) ==> s' == s)
    && (!SkipReading(s.params.value) && index.Some? ==> s'.index == index.value + 1)
  }

  /** An observation comes back only when every camera was configured, and
      with an index every reading camera then stands one frame past it. */
  lemma {:induction false} FullReadReadsEveryCamera<M>(cams: map<string, RecordedZedCamera<M>>,
      states: map<string, ZedState>, order: seq<string>, index: Option<int>, timestamps: map<string, int>,
      full: Data<M>)
    requires forall k :: k in order ==> k in cams && k in states
    requires Distinct(order)
    ensures var r := ReadAll(cams, states, order, index, timestamps, full);
      r.result.Ok? && r.result.value.Some? ==>
        forall k :: k in order ==> ReadAt(states[k], r.states[k], index)
    decreases |order|
  {
    if order != [] {
      var k := order[0];
      var o := CameraOutcome(cams[k], states[k], index, TimestampFor(timestamps, k));
      var next := states[k := o.state];
      if o.result.Ok? && o.result.value.Some? {
        var rest := MergeInto(full, o.result.value.value);
        var tail := order[1..];
        assert Distinct(tail) by {
          forall i, j | 0 <= i < j < |tail|
            ensures tail[i] != tail[j]
          {
            assert tail[i] == order[i + 1] && tail[j] == order[j + 1];
          }
        }
        assert k !in tail by {
          forall i | 0 <= i < |tail|
            ensures tail[i] != k
          {
            assert tail[i] == order[i + 1];
          }
        }
        FullReadReadsEveryCamera(cams, next, tail, index, timestamps, rest);
        ReadAllFrame(cams, next, tail, index, timestamps, rest);
        assert ReadAt(states[k], next[k], index);
        forall j | j in order
          ensures j == k || (j in tail && next[j] == states[j])
        {
        }
      }
    }
  }

  /** When every camera skips reading and there is no seek, the read
      returns an empty observation and changes no camera. */
  lemma {:induction false} NothingRequestedReadsNothing<M>(cams: map<string, RecordedZedCamera<M>>,
      states: map<string, ZedState>, order: seq<string>, timestamps: map<string, int>, full: Data<M>)
    requires forall i :: 0 <= i < |order| ==> order[i] in cams && order[i] in states
    requires forall k :: k in states ==> states[k].params.Some? && SkipReading(states[k].params.value)
    ensures ReadAll(cams, states, order, None, timestamps, full) == Outcome(states, Ok(Some(full)))
    decreases |order|
  {
    if order != [] {
      var k := order[0];
      MergeEmpty(full);
      assert states[k := states[k]] == states;
      NothingRequestedReadsNothing(cams, states, order[1..], timestamps, full);
    }
  }

  /** `ReadAll` from the `i`-th camera on, one step unrolled: it ends
      with the `i`-th camera's exception or `None`, or goes on from the
      next camera with the reading merged. */
  lemma ReadAllTurn<M>(spec: Outcome<M>, cams: map<string, RecordedZedCamera<M>>, states: map<string, ZedState>,
                       order: seq<string>, i: int, index: Option<int>, timestamps: map<string, int>, full: Data<M>)
    requires 0 <= i < |order| && order[i] in cams && order[i] in states
    requires spec == ReadAll(cams, states, order[i..], index, timestamps, full)
    ensures var k := order[i];
      var o := CameraOutcome(cams[k], states[k], index, TimestampFor(timestamps, k));
      (o.result.Err? || o.result.value.None? ==> spec == Outcome(states[k := o.state], o.result))
      && (o.result.Ok? && o.result.value.Some? ==>
            spec == ReadAll(cams, states[k := o.state], order[i + 1..], index, timestamps, MergeInto(full, o.result.value.value)))
  {
    assert order[i..][0] == order[i] && order[i..][1..] == order[i + 1..];
  }

  /** Where `read_cameras` stands after `i` cameras with the cameras in
      `states`: reading the rest from there gives `spec`. */
  ghost predicate Pending<M>(spec: Outcome<M>, cams: map<string, RecordedZedCamera<M>>, states: map<string, ZedState>,
                             order: seq<string>, i: int, index: Option<int>, timestamps: map<string, int>, full: Data<M>)
  {
    0 <= i <= |order| && spec == ReadAll(cams, states, order[i..], index, timestamps, full)
  }

  lemma PendingStarts<M>(spec: Outcome<M>, cams: map<string, RecordedZedCamera<M>>, states: map<string, ZedState>,
                         order: seq<string>, index: Option<int>, timestamps: map<string, int>)
    requires spec == ReadAll(cams, states, order, index, timestamps, map[])
    ensures Pending(spec, cams, states, order, 0, index, timestamps, map[])
  {
    assert order[0..] == order;
  }

  lemma PendingEnds<M>(spec: Outcome<M>, cams: map<string, RecordedZedCamera<M>>, states: map<string, ZedState>,
                       order: seq<string>, index: Option<int>, timestamps: map<string, int>, full: Data<M>)
    requires Pending(spec, cams, states, order, |order|, index, timestamps, full)
    ensures spec == Outcome(states, Ok(Some(full)))
  {
    assert order[|order|..] == [];
  }

  /** One camera's seek and read. */
  method ReadOne<M>(cam: RecordedZedCamera<M>, index: Option<int>, t: Option<int>) returns (r: Result<Option<Data<M>>>)
    modifies cam
    ensures cam.State() == CameraOutcome(cam, old(cam.State()), index, t).state
    ensures r == CameraOutcome(cam, old(cam.State()), index, t).result
  {
    if index.Some? {
      var e := cam.SetFrameIndex(index.value);
      if e.Err? {
        return Err(e.error);
      }
    }
    r := cam.ReadCamera(false, t);
  }

  // ---------------------------------------------------------------- the wrapper

  /** A recorded file: its frames, and whether the SDK opens it. */
  datatype Recording<M> = Recording(svo: seq<Frame<M>>, opens: bool)

  /** The file at a path; a path with no file reads as an empty recording
      that does not open. */
  function RecordingAt<M>(recordings: map<string, Recording<M>>, f: string): (r: Recording<M>)
    ensures f in recordings ==> r == recordings[f]
    ensures f !in recordings ==> r.svo == [] && !r.opens
  {
    if f in recordings then recordings[f] else Recording([], false)
  }

  /** `get_camera_type`: the type string of a registered serial number,
      `None` otherwise. */
  function TypeOf(cameraTypes: map<string, string>, serial: string): (t: Option<string>)
    ensures t.Some? <==> serial in cameraTypes
    ensures t.Some? ==> t.value == cameraTypes[serial]
  {
    if serial in cameraTypes then Some(cameraTypes[serial]) else None
  }

  /** The serial numbers a list of recordings gives. */
  function Serials(fs: seq<string>): set<string>
  {
    if fs == [] then {}
    else Serials(fs[..|fs| - 1]) + {SerialFromPath(fs[|fs| - 1])}
  }

  lemma SerialsSnoc(fs: seq<string>, i: int)
    requires 0 <= i < |fs|
    ensures Serials(fs[..i + 1]) == Serials(fs[..i]) + {SerialFromPath(fs[i])}
  {
    assert fs[..i + 1][..i] == fs[..i];
  }

  /** `Serials` names exactly the serial numbers of the listed files. */
  lemma {:induction false} SerialsOfFiles(fs: seq<string>)
    ensures Serials(fs) == set f | f in fs :: SerialFromPath(f)
  {
    if fs != [] {
      var init := fs[..|fs| - 1];
      SerialsOfFiles(init);
      assert fs == init + [fs[|fs| - 1]];
    }
  }

  /** `cam` is the reader the constructor opens for serial number `k`: on
      one of the recordings, named after it, configured with the keyword
      arguments of its type. */
  ghost predicate OpenedFrom<M>(cam: RecordedZedCamera<M>, k: string, filepaths: seq<string>,
                                recordings: map<string, Recording<M>>,
                                cameraTypes: map<string, string>, cameraKwargs: map<string, Params>)
    reads cam
  {
    cam.serialNumber == k && cam.filepath in filepaths && SerialFromPath(cam.filepath) == k
    && cam.svo == RecordingAt(recordings, cam.filepath).svo && cam.openOk == RecordingAt(recordings, cam.filepath).opens
    && cam.State() == Configure(ZedState(None, 0, 0, NoCamera), ParamsFor(cameraKwargs, TypeOf(cameraTypes, k)), cam.openOk)
  }

  /** `ids` lists the keys of `d` once each, and no two keys share a
      reader. */
  ghost predicate Indexed<M>(d: map<string, RecordedZedCamera<M>>, ids: seq<string>)
  {
    Distinct(ids)
    && (forall k :: k in d <==> k in ids)
    && (forall a, b :: a in d && b in d && a != b ==> d[a] != d[b])
  }

  /** `d[k] = cam` with a reader not yet in `d`, the key listed once. */
  lemma IndexedInsert<M>(d: map<string, RecordedZedCamera<M>>, ids: seq<string>, k: string, cam: RecordedZedCamera<M>)
    requires Indexed(d, ids)
    requires forall j :: j in d ==> d[j] != cam
    ensures Indexed(d[k := cam], if k in d then ids else ids + [k])
  {
  }

  /** Every reader in `d` is the one the constructor opens for its key. */
  ghost predicate AllOpened<M>(d: map<string, RecordedZedCamera<M>>, filepaths: seq<string>,
                               recordings: map<string, Recording<M>>,
                               cameraTypes: map<string, string>, cameraKwargs: map<string, Params>)
    reads d.Values
  {
    forall k :: k in d ==> OpenedFrom(d[k], k, filepaths, recordings, cameraTypes, cameraKwargs)
  }

  lemma AllOpenedInsert<M>(d: map<string, RecordedZedCamera<M>>, k: string, cam: RecordedZedCamera<M>,
                           filepaths: seq<string>, recordings: map<string, Recording<M>>,
                           cameraTypes: map<string, string>, cameraKwargs: map<string, Params>)
    requires AllOpened(d, filepaths, recordings, cameraTypes, cameraKwargs)
    requires OpenedFrom(cam, k, filepaths, recordings, cameraTypes, cameraKwargs)
    ensures AllOpened(d[k := cam], filepaths, recordings, cameraTypes, cameraKwargs)
  {
  }

  /** The constructor's loop after the first `i` files: `d` holds a
      reader for each of their serial numbers, `ids` the keys in insertion
      order. */
  ghost predicate OpenedUpTo<M>(d: map<string, RecordedZedCamera<M>>, ids: seq<string>, filepaths: seq<string>, i: int,
                                recordings: map<string, Recording<M>>,
                                cameraTypes: map<string, string>, cameraKwargs: map<string, Params>)
    reads d.Values
  {
    0 <= i <= |filepaths| && Indexed(d, ids) && d.Keys == Serials(filepaths[..i])
    && AllOpened(d, filepaths, recordings, cameraTypes, cameraKwargs)
  }

  /** One turn of the constructor's loop: `camera_dict[serial_number]` set
      to a new reader on the `i`-th file. */
  method OpenNext<M>(d: map<string, RecordedZedCamera<M>>, ids: seq<string>, filepaths: seq<string>, i: int,
                     recordings: map<string, Recording<M>>,
                     cameraTypes: map<string, string>, cameraKwargs: map<string, Params>)
    returns (d': map<string, RecordedZedCamera<M>>, ids': seq<string>)
    requires OpenedUpTo(d, ids, filepaths, i, recordings, cameraTypes, cameraKwargs) && i < |filepaths|
    ensures OpenedUpTo(d', ids', filepaths, i + 1, recordings, cameraTypes, cameraKwargs)
    ensures forall k :: k in d' ==> fresh(d'[k]) || (k in d && d'[k] == d[k])
  {
    var cam := Open(filepaths[i], filepaths, recordings, cameraTypes, cameraKwargs);
    var serialNumber := SerialFromPath(filepaths[i]);
    AllOpenedInsert(d, serialNumber, cam, filepaths, recordings, cameraTypes, cameraKwargs);
    IndexedInsert(d, ids, serialNumber, cam);
    ids' := if serialNumber in d then ids else ids + [serialNumber];
    d' := d[serialNumber := cam];
    SerialsSnoc(filepaths, i);
  }

  /** The constructor's loop: a reader for every recording, the later of
      two files with the same serial number winning. */
  method OpenAll<M>(filepaths: seq<string>, recordings: map<string, Recording<M>>,
                    cameraTypes: map<string, string>, cameraKwargs: map<string, Params>)
    returns (d: map<string, RecordedZedCamera<M>>, ids: seq<string>)
    ensures Indexed(d, ids)
    ensures d.Keys == set f | f in filepaths :: SerialFromPath(f)
    ensures forall k :: k in d ==> fresh(d[k])
    ensures AllOpened(d, filepaths, recordings, cameraTypes, cameraKwargs)
  {
    d := map[];
    ids := [];
    var i := 0;
    while i < |filepaths|
      invariant OpenedUpTo(d, ids, filepaths, i, recordings, cameraTypes, cameraKwargs)
      invariant forall k :: k in d ==> fresh(d[k])
    {
      d, ids := OpenNext(d, ids, filepaths, i, recordings, cameraTypes, cameraKwargs);
      i := i + 1;
    }
    assert filepaths[..i] == filepaths;
    SerialsOfFiles(filepaths);
  }

  /** A new reader on `f`, configured with the keyword arguments of its
      camera type. */
  method Open<M>(f: string, filepaths: seq<string>, recordings: map<string, Recording<M>>,
                 cameraTypes: map<string, string>, cameraKwargs: map<string, Params>)
    returns (cam: RecordedZedCamera<M>)
    requires f in filepaths
    ensures fresh(cam) && cam.filepath == f
    ensures OpenedFrom(cam, SerialFromPath(f), filepaths, recordings, cameraTypes, cameraKwargs)
  {
    var serialNumber := SerialFromPath(f);
    var camType := TypeOf(cameraTypes, serialNumber);
    cam := new RecordedZedCamera(f, serialNumber, RecordingAt(recordings, f).svo, RecordingAt(recordings, f).opens);
    cam.SetReadingParameters(ParamsFor(cameraKwargs, camType));
  }

  class RecordedMultiCameraWrapper<M> {
    var cameraDict: map<string, RecordedZedCamera<M>>
    /** The keys of `camera_dict` in insertion order. */
    var cameraIds: seq<string>

    ghost predicate Valid()
      reads this
    {
      Indexed(cameraDict, cameraIds)
    }

    /** Every camera's state, by serial number. */
    function Snapshot(): map<string, ZedState>
      reads this, cameraDict.Values
    {
      map k | k in cameraDict :: cameraDict[k].State()
    }

    /** The constructor: one reader per recording, configured with its
        type's keyword arguments. A later file with the same serial number
        replaces an earlier one. `recordings` plays the part of the SVO
        files and `cameraTypes` that of the table behind
        `get_camera_type`. */
    constructor(filepaths: seq<string>, recordings: map<string, Recording<M>>,
                cameraTypes: map<string, string>, cameraKwargs: map<string, Params>)
      ensures Valid()
      ensures cameraDict.Keys == set f | f in filepaths :: SerialFromPath(f)
      ensures fresh(cameraDict.Values)
      ensures AllOpened(cameraDict, filepaths, recordings, cameraTypes, cameraKwargs)
    {
      var d, ids := OpenAll(filepaths, recordings, cameraTypes, cameraKwargs);
      cameraDict := d;
      cameraIds := ids;
    }

    /** `states` holds every camera's current state. */
    ghost predicate Mirrors(states: map<string, ZedState>)
      reads this, cameraDict.Values
    {
      states.Keys == cameraDict.Keys && forall k :: k in cameraDict ==> cameraDict[k].State() == states[k]
    }

    /** One turn of `read_cameras`'s loop: the `i`-th camera seeks and
        reads; the read stops or goes on to the next camera. */
    method ReadTurn(ghost spec: Outcome<M>, order: seq<string>, i: int, index: Option<int>,
                    timestamps: map<string, int>, full: Data<M>, ghost states: map<string, ZedState>)
      returns (r: Result<Option<Data<M>>>, full': Data<M>, ghost states': map<string, ZedState>)
      requires Valid() && Mirrors(states) && (forall j :: 0 <= j < |order| ==> order[j] in cameraDict)
      requires Pending(spec, cameraDict, states, order, i, index, timestamps, full) && i < |order|
      modifies cameraDict.Values
      ensures Mirrors(states')
      ensures r.Err? || r.value.None? ==> spec == Outcome(states', r)
      ensures r.Ok? && r.value.Some? ==> Pending(spec, cameraDict, states', order, i + 1, index, timestamps, full')
    {
      var camId := order[i];
      var cam := cameraDict[camId];
      ReadAllTurn(spec, cameraDict, states, order, i, index, timestamps, full);
      r := ReadOne(cam, index, TimestampFor(timestamps, camId));
      states' := states[camId := cam.State()];
      forall k | k in cameraDict && k != camId
        ensures cameraDict[k].State() == states'[k]
      {
        assert cameraDict[k] != cam;
      }
      full' := if r.Ok? && r.value.Some? then MergeInto(full, r.value.value) else full;
    }

    /** `read_cameras`, reading the cameras in `order`, the shuffle of the
        camera ids that `random.shuffle` produced. */
    method ReadCameras(index: Option<int>, timestamps: map<string, int>, order: seq<string>)
      returns (r: Result<Option<Data<M>>>)
      requires Valid()
      requires |order| == |cameraIds| && Distinct(order) && forall i :: 0 <= i < |order| ==> order[i] in cameraDict
      modifies cameraDict.Values
      ensures var spec := ReadAll(cameraDict, old(Snapshot()), order, index, timestamps, map[]);
        r == spec.result && Mirrors(spec.states)
    {
      ghost var cams := cameraDict;
      ghost var states := Snapshot();
      ghost var spec := ReadAll(cams, states, order, index, timestamps, map[]);
      var full: Data<M> := map[];
      var i := 0;
      PendingStarts(spec, cams, states, order, index, timestamps);
      while i < |order|
        invariant Mirrors(states)
        invariant Pending(spec, cams, states, order, i, index, timestamps, full)
      {
        r, full, states := ReadTurn(spec, order, i, index, timestamps, full, states);
        if r.Err? || r.value.None? {
          return;
        }
        i := i + 1;
      }
      PendingEnds(spec, cams, states, order, index, timestamps, full);
      r := Ok(Some(full));
    }

    /** `disable_cameras`: closes every camera. */
    method DisableCameras()
      requires Valid()
      modifies cameraDict.Values
      ensures forall k :: k in cameraDict ==> cameraDict[k].State() == Disabled(old(cameraDict[k].State()))
    {
      var i := 0;
      while i < |cameraIds|
        invariant 0 <= i <= |cameraIds|
        invariant forall k :: k in cameraDict ==>
          cameraDict[k].State() == if k in cameraIds[..i] then Disabled(old(cameraDict[k].State())) else old(cameraDict[k].State())
      {
        var cam := cameraDict[cameraIds[i]];
        cam.DisableCamera();
        assert cameraIds[..i + 1] == cameraIds[..i] + [cameraIds[i]];
        i := i + 1;
      }
      assert cameraIds[..i] == cameraIds;
    }
  }
}
