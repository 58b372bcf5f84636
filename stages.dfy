/** The bookkeeping of the first two postprocessing stages of
    r2d2/postprocessing/stages.py: indexing walks `success/` and `failure/`
    day by day and records each trajectory either under its uuid in
    `indexed_uuids` or, with a message, in `errored_paths`; processing
    walks `indexed_uuids` and records each converted and validated
    trajectory in `processed_uuids`.

    The directory listing and everything the parsers, validators and the
    SVO converter report are given as data. */
module Stages {
  import opened Wrappers
  import PyStrings
  import PyDict

  datatype Outcome = Success | Failure

  function OutcomeName(o: Outcome): string
  {
    if o == Success then "success" else "failure"
  }

  /** The cache's per-outcome dictionaries, `{"success": {..}, "failure": {..}}`. */
  datatype ByOutcome = ByOutcome(success: PyDict.Dict, failure: PyDict.Dict) {
    function At(o: Outcome): PyDict.Dict
    {
      if o == Success then success else failure
    }

    function With(o: Outcome, d: PyDict.Dict): ByOutcome
    {
      if o == Success then this.(success := d) else this.(failure := d)
    }
  }

  const NoneYet: ByOutcome := ByOutcome(PyDict.Empty, PyDict.Empty)

  ghost predicate ValidByOutcome(b: ByOutcome)
  {
    PyDict.Valid(b.success) && PyDict.Valid(b.failure)
  }

  /** The dictionary a stage fills (`indexed_uuids` or `processed_uuids`)
      and `errored_paths`. */
  datatype Ledger = Ledger(uuids: ByOutcome, errored: ByOutcome)

  ghost predicate ValidLedger(l: Ledger)
  {
    ValidByOutcome(l.uuids) && ValidByOutcome(l.errored)
  }

  // ---------------------------------------------------------------- the data directory

  /** An entry of a day directory, with what `parse_timestamp`, `parse_user`
      and `validate_svo_existence` report for it. */
  datatype Trajectory = Trajectory(name: string, isDir: bool, timestamp: string,
                                   user: Option<string>, userId: Option<string>, svoFiles: bool)

  /** An entry of an outcome directory: whether it is a directory that
      `validate_day_dir` accepts, its date as `parse_datetime` reads it, and
      its entries in listing order. */
  datatype DayDir = DayDir(isDayDir: bool, date: int, trajectories: seq<Trajectory>)

  /** `data_dir`: each outcome directory, by entry name, or `None` when it
      does not exist. */
  datatype DataDir = DataDir(success: Option<map<string, DayDir>>, failure: Option<map<string, DayDir>>)

  function OutcomeDays(data: DataDir, o: Outcome): Option<map<string, DayDir>>
  {
    if o == Success then data.success else data.failure
  }

  /** The names of the accepted day directories among `names`, in order. */
  function KeepDayDirs(names: seq<string>, days: map<string, DayDir>): (r: seq<string>)
    requires forall n :: n in names ==> n in days
    ensures forall n :: n in r <==> n in names && days[n].isDayDir
    ensures PyStrings.StrictlySorted(names) ==> PyStrings.StrictlySorted(r)
    decreases |names|
  {
    if names == [] then []
    else
      var rest := KeepDayDirs(names[1..], days);
      if !days[names[0]].isDayDir then rest
      else
        assert PyStrings.StrictlySorted(names) ==> forall j :: 0 <= j < |rest| ==> PyStrings.Less(names[0], rest[j]) by {
          if PyStrings.StrictlySorted(names) {
            forall j | 0 <= j < |rest|
              ensures PyStrings.Less(names[0], rest[j])
            {
              assert rest[j] in names[1..];
              var m :| 0 <= m < |names[1..]| && names[1..][m] == rest[j];
              assert names[m + 1] == rest[j];
            }
          }
        }
        [names[0]] + rest
  }

  /** `sorted(p for p in outcome_dir.iterdir() if p.is_dir() and
      validate_day_dir(p))`: the day directories in increasing order. */
  function DayNames(days: map<string, DayDir>): (r: seq<string>)
    ensures forall n :: n in r <==> n in days && days[n].isDayDir
    ensures PyStrings.StrictlySorted(r)
  {
    KeepDayDirs(PyStrings.SortedSet(days.Keys), days)
  }

  /** A trajectory as the indexing loop meets it: its path relative to
      `data_dir`, and what is known about it. */
  datatype Visit = Visit(relPath: string, trajectory: Trajectory)

  function RelPath(o: Outcome, day: string, name: string): string
  {
    OutcomeName(o) + "/" + day + "/" + name
  }

  /** The sub-directories of one day directory, in listing order. */
  function DayVisits(o: Outcome, day: string, ts: seq<Trajectory>): (r: seq<Visit>)
    decreases |ts|
  {
    if ts == [] then []
    else
      var t := ts[|ts| - 1];
      DayVisits(o, day, ts[..|ts| - 1]) + (if t.isDir then [Visit(RelPath(o, day, t.name), t)] else [])
  }

  /** A day's visits are exactly its sub-directories, each under its path. */
  lemma {:induction false} DayVisitsAreSubdirectories(o: Outcome, day: string, ts: seq<Trajectory>)
    ensures forall v :: v in DayVisits(o, day, ts) <==>
      v.trajectory in ts && v.trajectory.isDir && v.relPath == RelPath(o, day, v.trajectory.name)
    decreases |ts|
  {
    if ts != [] {
      var t := ts[|ts| - 1];
      DayVisitsAreSubdirectories(o, day, ts[..|ts| - 1]);
      assert ts == ts[..|ts| - 1] + [t];
      assert forall x :: x in ts <==> x in ts[..|ts| - 1] || x == t;
    }
  }

  /** The trajectories the indexing loop visits in the day directories
      `names`, in order; days dated before `start` are passed over. */
  function Visits(o: Outcome, days: map<string, DayDir>, names: seq<string>, start: int): (r: seq<Visit>)
    requires forall n :: n in names ==> n in days
    decreases |names|
  {
    if names == [] then []
    else
      var n := names[|names| - 1];
      var earlier := Visits(o, days, names[..|names| - 1], start);
      earlier + (if days[n].date < start then [] else DayVisits(o, n, days[n].trajectories))
  }

  /** Only days dated from `start` on are visited, and only their
      sub-directories. */
  lemma {:induction false} VisitsOnlyDaysFromStart(o: Outcome, days: map<string, DayDir>, names: seq<string>, start: int)
    requires forall n :: n in names ==> n in days
    ensures forall v :: v in Visits(o, days, names, start) ==>
      exists n :: n in names && days[n].date >= start && v.trajectory in days[n].trajectories && v.trajectory.isDir
                  && v.relPath == RelPath(o, n, v.trajectory.name)
    decreases |names|
  {
    if names != [] {
      var n := names[|names| - 1];
      var init := names[..|names| - 1];
      VisitsOnlyDaysFromStart(o, days, init, start);
      DayVisitsAreSubdirectories(o, n, days[n].trajectories);
      assert forall m :: m in init ==> m in names;
    }
  }

  /** Every sub-directory of every accepted day from `start` on is visited. */
  lemma {:induction false} VisitsEveryDayFromStart(o: Outcome, days: map<string, DayDir>, names: seq<string>, start: int,
                                                   n: string, t: Trajectory)
    requires forall m :: m in names ==> m in days
    requires n in names && days[n].date >= start && t in days[n].trajectories && t.isDir
    ensures Visit(RelPath(o, n, t.name), t) in Visits(o, days, names, start)
    decreases |names|
  {
    var last := names[|names| - 1];
    if n != last {
      assert names == names[..|names| - 1] + [last];
      VisitsEveryDayFromStart(o, days, names[..|names| - 1], start, n, t);
    } else {
      DayVisitsAreSubdirectories(o, n, days[n].trajectories);
    }
  }

  // ---------------------------------------------------------------- stage 1: indexing

  /** `f"{lab}+{user_id}+{timestamp}"`. */
  function Uuid(lab: string, userId: string, timestamp: string): string
  {
    lab + "+" + userId + "+" + timestamp
  }

  /** The message a trajectory leaves in `errored_paths`, or `None` when it
      is indexed. */
  function Verdict(t: Trajectory): (r: Option<string>)
    ensures r.None? <==> t.user.Some? && t.userId.Some? && t.svoFiles
  {
    if t.user.None? || t.userId.None? then Some("Missing/Invalid HDF5")
    else if !t.svoFiles then Some("Missing SVO Files")
    else None
  }

  /** The body of the innermost indexing loop. */
  function IndexOne(l: Ledger, lab: string, o: Outcome, v: Visit): (r: Ledger)
  {
    var t := v.trajectory;
    match Verdict(t)
    case Some(message) => l.(errored := l.errored.With(o, PyDict.Put(l.errored.At(o), v.relPath, message)))
    case None =>
      var uuid := Uuid(lab, t.userId.value, t.timestamp);
      Ledger(l.uuids.With(o, PyDict.Put(l.uuids.At(o), uuid, v.relPath)),
             l.errored.With(o, PyDict.Pop(l.errored.At(o), v.relPath)))
  }

  /** The visits of one outcome directory, in order. Nothing of the other
      outcome changes, and both dictionaries stay dictionaries. */
  function IndexAll(l: Ledger, lab: string, o: Outcome, vs: seq<Visit>): (r: Ledger)
    ensures forall o' :: o' != o ==> r.uuids.At(o') == l.uuids.At(o') && r.errored.At(o') == l.errored.At(o')
    ensures ValidLedger(l) ==> ValidLedger(r)
    decreases |vs|
  {
    if vs == [] then l
    else IndexOne(IndexAll(l, lab, o, vs[..|vs| - 1]), lab, o, vs[|vs| - 1])
  }

  lemma IndexAllSnoc(l: Ledger, lab: string, o: Outcome, vs: seq<Visit>, v: Visit)
    ensures IndexAll(l, lab, o, vs + [v]) == IndexOne(IndexAll(l, lab, o, vs), lab, o, v)
  {
    assert (vs + [v])[..|vs|] == vs;
  }

  /** One outcome directory: a missing `failure/` is passed over, a missing
      `success/` cannot be listed. */
  function IndexOutcome(l: Ledger, data: DataDir, lab: string, start: int, o: Outcome): (r: Result<Ledger>)
    ensures r.Err? <==> o == Success && data.success.None?
    ensures r.Err? ==> r.error == FileNotFoundError
    ensures o == Failure && data.failure.None? ==> r == Ok(l)
  {
    match OutcomeDays(data, o)
    case None => if o == Failure then Ok(l) else Err(FileNotFoundError)
    case Some(days) => Ok(IndexAll(l, lab, o, Visits(o, days, DayNames(days), start)))
  }

  /** `run_indexing`: `success/`, then `failure/`. */
  function Indexing(l: Ledger, data: DataDir, lab: string, start: int): (r: Result<Ledger>)
    ensures r.Err? <==> data.success.None?
    ensures ValidLedger(l) && r.Ok? ==> ValidLedger(r.value)
  {
    var s := IndexOutcome(l, data, lab, start, Success);
    if s.Err? then s else IndexOutcome(s.value, data, lab, start, Failure)
  }

  /** The uuids of the visits that pass: user and user id parsed, SVO files
      present. */
  function IndexedUuids(lab: string, vs: seq<Visit>): set<string>
    decreases |vs|
  {
    if vs == [] then {}
    else
      var t := vs[|vs| - 1].trajectory;
      IndexedUuids(lab, vs[..|vs| - 1]) + (if Verdict(t).None? then {Uuid(lab, t.userId.value, t.timestamp)} else {})
  }

  /** A uuid is indexed after the loop exactly when it was before or a
      visited trajectory passed every check and has that uuid. */
  lemma {:induction false} IndexedIffPassed(l: Ledger, lab: string, o: Outcome, vs: seq<Visit>)
    ensures forall u :: u in IndexAll(l, lab, o, vs).uuids.At(o).values <==> u in l.uuids.At(o).values || u in IndexedUuids(lab, vs)
    decreases |vs|
  {
    if vs != [] {
      IndexedIffPassed(l, lab, o, vs[..|vs| - 1]);
    }
  }

  function RelPaths(vs: seq<Visit>): set<string>
  {
    set i | 0 <= i < |vs| :: vs[i].relPath
  }

  predicate DistinctPaths(vs: seq<Visit>)
  {
    forall i, j :: 0 <= i < j < |vs| ==> vs[i].relPath != vs[j].relPath
  }

  /** Each visited trajectory's path ends up in `errored_paths` with the
      message of the check it failed, or not at all when it was indexed
      (an error left by an earlier run is cleared); other paths keep what
      they had. */
  lemma {:induction false} ErroredMatchesVerdict(l: Ledger, lab: string, o: Outcome, vs: seq<Visit>)
    requires DistinctPaths(vs)
    ensures var e := IndexAll(l, lab, o, vs).errored.At(o);
      forall i :: 0 <= i < |vs| ==> PyDict.Get(e, vs[i].relPath) == Verdict(vs[i].trajectory)
    ensures var e := IndexAll(l, lab, o, vs).errored.At(o);
      forall p :: p !in RelPaths(vs) ==> PyDict.Get(e, p) == PyDict.Get(l.errored.At(o), p)
    decreases |vs|
  {
    if vs != [] {
      var init := vs[..|vs| - 1];
      var v := vs[|vs| - 1];
      ErroredMatchesVerdict(l, lab, o, init);
      var before := IndexAll(l, lab, o, init).errored.At(o);
      var e := IndexAll(l, lab, o, vs).errored.At(o);
      assert e == IndexOne(IndexAll(l, lab, o, init), lab, o, v).errored.At(o);
      assert forall p :: p != v.relPath ==> PyDict.Get(e, p) == PyDict.Get(before, p);
      assert PyDict.Get(e, v.relPath) == Verdict(v.trajectory);
      forall i | 0 <= i < |vs| - 1
        ensures PyDict.Get(e, vs[i].relPath) == Verdict(vs[i].trajectory)
      {
        assert init[i] == vs[i];
      }
      assert forall p :: p in RelPaths(init) ==> p in RelPaths(vs);
    }
  }

  // ---------------------------------------------------------------- stage 2: processing

  /** What `parse_trajectory`, `convert_mp4s` and `validate_metadata_record`
      report for a trajectory directory. */
  datatype Checks = Checks(parsed: bool, converted: bool, complete: bool)

  /** The body of the processing loop for one `uuid -> rel_trajectory_dir`
      item of `indexed_uuids[outcome]`. */
  function ProcessOne(l: Ledger, o: Outcome, uuid: string, rel: string, c: Checks): (r: Ledger)
  {
    if uuid in l.uuids.At(o).values then l
    else
      var e := if c.parsed then l.errored.At(o) else PyDict.Put(l.errored.At(o), rel, "JSON Metadata Parse Error");
      if !c.converted then l.(errored := l.errored.With(o, PyDict.Put(e, rel, "Corrupted SVO / Failed Conversion")))
      else if !c.complete then l.(errored := l.errored.With(o, PyDict.Put(e, rel, "Incomplete Metadata Record!")))
      else Ledger(l.uuids.With(o, PyDict.Put(l.uuids.At(o), uuid, rel)), l.errored.With(o, PyDict.Pop(e, rel)))
  }

  /** The items `keys` of `indexed_uuids[o]`, in order. */
  function ProcessAll(l: Ledger, o: Outcome, keys: seq<string>, indexed: map<string, string>, checks: string -> Checks): (r: Ledger)
    requires forall k :: k in keys ==> k in indexed
    ensures forall o' :: o' != o ==> r.uuids.At(o') == l.uuids.At(o') && r.errored.At(o') == l.errored.At(o')
    ensures ValidLedger(l) ==> ValidLedger(r)
    decreases |keys|
  {
    if keys == [] then l
    else
      var u := keys[|keys| - 1];
      ProcessOne(ProcessAll(l, o, keys[..|keys| - 1], indexed, checks), o, u, indexed[u], checks(indexed[u]))
  }

  lemma ProcessAllSnoc(l: Ledger, o: Outcome, keys: seq<string>, u: string, indexed: map<string, string>, checks: string -> Checks)
    requires forall k :: k in keys ==> k in indexed
    requires u in indexed
    ensures ProcessAll(l, o, keys + [u], indexed, checks) == ProcessOne(ProcessAll(l, o, keys, indexed, checks), o, u, indexed[u], checks(indexed[u]))
  {
    assert (keys + [u])[..|keys|] == keys;
  }

  /** One outcome of `run_processing`. */
  function ProcessOutcome(l: Ledger, indexed: ByOutcome, checks: string -> Checks, o: Outcome): (r: Ledger)
    requires ValidByOutcome(indexed)
  {
    ProcessAll(l, o, indexed.At(o).order, indexed.At(o).values, checks)
  }

  /** `run_processing`: every outcome of `indexed_uuids`, `success` first. */
  function Processing(l: Ledger, indexed: ByOutcome, checks: string -> Checks): (r: Ledger)
    requires ValidByOutcome(indexed)
  {
    ProcessOutcome(ProcessOutcome(l, indexed, checks, Success), indexed, checks, Failure)
  }

  /** The uuids among `keys` whose trajectory converts and validates. */
  function Ready(keys: seq<string>, indexed: map<string, string>, checks: string -> Checks): set<string>
    requires forall k :: k in keys ==> k in indexed
    decreases |keys|
  {
    if keys == [] then {}
    else
      var u := keys[|keys| - 1];
      var c := checks(indexed[u]);
      Ready(keys[..|keys| - 1], indexed, checks) + (if c.converted && c.complete then {u} else {})
  }

  /** A uuid is processed after the loop exactly when it was before, or it
      is indexed and its trajectory converted and validated; a parse error
      alone does not keep it out. */
  lemma {:induction false} ProcessedIffReady(l: Ledger, o: Outcome, keys: seq<string>, indexed: map<string, string>, checks: string -> Checks)
    requires forall k :: k in keys ==> k in indexed
    ensures forall u :: u in ProcessAll(l, o, keys, indexed, checks).uuids.At(o).values <==>
                        u in l.uuids.At(o).values || u in Ready(keys, indexed, checks)
    decreases |keys|
  {
    if keys != [] {
      ProcessedIffReady(l, o, keys[..|keys| - 1], indexed, checks);
    }
  }

  /** A uuid processed before is passed over: its entry stays as it was.
      (Its path's error entry can still change, when another uuid is indexed
      under the same path.) */
  lemma {:induction false} ProcessedAreSkipped(l: Ledger, o: Outcome, keys: seq<string>, indexed: map<string, string>, checks: string -> Checks, u: string)
    requires forall k :: k in keys ==> k in indexed
    requires u in l.uuids.At(o).values
    ensures PyDict.Get(ProcessAll(l, o, keys, indexed, checks).uuids.At(o), u) == PyDict.Get(l.uuids.At(o), u)
    decreases |keys|
  {
    if keys != [] {
      ProcessedAreSkipped(l, o, keys[..|keys| - 1], indexed, checks, u);
    }
  }

  /** A trajectory whose metadata did not parse but which converts and
      validates is processed, and the parse error is cleared again. */
  lemma ParseErrorAloneIsCleared(l: Ledger, o: Outcome, uuid: string, rel: string, c: Checks)
    requires uuid !in l.uuids.At(o).values && c.converted && c.complete
    ensures var r := ProcessOne(l, o, uuid, rel, c);
      PyDict.Get(r.uuids.At(o), uuid) == Some(rel) && PyDict.Get(r.errored.At(o), rel).None?
  {
  }

  /** The error a trajectory is left with when a check fails: the last
      failing check's message. */
  lemma FailedCheckIsRecorded(l: Ledger, o: Outcome, uuid: string, rel: string, c: Checks)
    requires uuid !in l.uuids.At(o).values && !(c.converted && c.complete)
    ensures var r := ProcessOne(l, o, uuid, rel, c);
      uuid !in r.uuids.At(o).values
      && PyDict.Get(r.errored.At(o), rel) == Some(if !c.converted then "Corrupted SVO / Failed Conversion"
                                                  else "Incomplete Metadata Record!")
  {
  }

  // ---------------------------------------------------------------- the cache

  /** A success and a failure count. */
  datatype Counts = Counts(success: int, failure: int)

  /** `cache["totals"]`. */
  datatype Totals = Totals(scanned: Counts, indexed: Counts, processed: Counts, uploaded: Counts, errored: Counts)

  const ZeroCounts: Counts := Counts(0, 0)

  /** The postprocessing cache, which every stage updates in place. */
  class Cache {
    var lab: string
    var startDate: string
    var totals: Totals
    var scannedPaths: ByOutcome
    var indexed: ByOutcome
    var processed: ByOutcome
    var uploaded: ByOutcome
    var errored: ByOutcome

    ghost predicate Valid()
      reads this
    {
      ValidByOutcome(scannedPaths) && ValidByOutcome(indexed) && ValidByOutcome(processed)
      && ValidByOutcome(uploaded) && ValidByOutcome(errored)
    }

    /** A fresh cache: every count zero and every dictionary empty. */
    constructor(lab: string, startDate: string)
      ensures this.lab == lab && this.startDate == startDate
      ensures totals == Totals(ZeroCounts, ZeroCounts, ZeroCounts, ZeroCounts, ZeroCounts)
      ensures scannedPaths == NoneYet && indexed == NoneYet && processed == NoneYet
      ensures uploaded == NoneYet && errored == NoneYet
      ensures Valid()
    {
      this.lab := lab;
      this.startDate := startDate;
      totals := Totals(ZeroCounts, ZeroCounts, ZeroCounts, ZeroCounts, ZeroCounts);
      scannedPaths := NoneYet;
      indexed := NoneYet;
      processed := NoneYet;
      uploaded := NoneYet;
      errored := NoneYet;
    }
  }

  // ---------------------------------------------------------------- the stages on the cache

  /** `run_indexing` over the cache's `indexed_uuids` and `errored_paths`.
      A missing `success/` raises before anything changes. */
  method RunIndexing(c: Cache, data: DataDir, lab: string, start: int) returns (r: Result<()>)
    modifies c`indexed, c`errored
    ensures var spec := Indexing(old(Ledger(c.indexed, c.errored)), data, lab, start);
      (spec.Ok? ==> r == Ok(()) && Ledger(c.indexed, c.errored) == spec.value)
      && (spec.Err? ==> r == Err(spec.error) && c.indexed == old(c.indexed) && c.errored == old(c.errored))
  {
    ghost var l0 := Ledger(c.indexed, c.errored);
    var outcomes := [Success, Failure];
    var i := 0;
    while i < 2
      invariant 0 <= i <= 2
      invariant i == 0 ==> Ledger(c.indexed, c.errored) == l0
      invariant i >= 1 ==> IndexOutcome(l0, data, lab, start, Success).Ok?
      invariant i == 1 ==> Ledger(c.indexed, c.errored) == IndexOutcome(l0, data, lab, start, Success).value
      invariant i == 2 ==> Indexing(l0, data, lab, start) == Ok(Ledger(c.indexed, c.errored))
    {
      var o := outcomes[i];
      var days := OutcomeDays(data, o);
      if days.None? {
        if o == Failure {
          i := i + 1;
          continue;
        }
        return Err(FileNotFoundError);
      }
      IndexDays(c, lab, o, days.value, start);
      i := i + 1;
    }
    return Ok(());
  }

  /** The day loop of one outcome directory. */
  method IndexDays(c: Cache, lab: string, o: Outcome, days: map<string, DayDir>, start: int)
    modifies c`indexed, c`errored
    ensures Ledger(c.indexed, c.errored) == IndexAll(old(Ledger(c.indexed, c.errored)), lab, o, Visits(o, days, DayNames(days), start))
  {
    ghost var l0 := Ledger(c.indexed, c.errored);
    var names := DayNames(days);
    var i := 0;
    while i < |names|
      invariant 0 <= i <= |names|
      invariant Ledger(c.indexed, c.errored) == IndexAll(l0, lab, o, Visits(o, days, names[..i], start))
    {
      var day := names[i];
      ghost var before := Visits(o, days, names[..i], start);
      ghost var after := Visits(o, days, names[..i + 1], start);
      VisitsSnoc(o, days, names, i, start);
      if days[day].date >= start {
        IndexDay(c, lab, o, day, days[day].trajectories, l0, before);
        assert after == before + DayVisits(o, day, days[day].trajectories);
      } else {
        assert after == before + [];
        assert before + [] == before;
      }
      assert Ledger(c.indexed, c.errored) == IndexAll(l0, lab, o, after);
      i := i + 1;
    }
    assert names[..i] == names;
  }

  lemma VisitsSnoc(o: Outcome, days: map<string, DayDir>, names: seq<string>, i: int, start: int)
    requires 0 <= i < |names| && forall n :: n in names ==> n in days
    ensures forall n :: n in names[..i] ==> n in days
    ensures Visits(o, days, names[..i + 1], start) ==
      Visits(o, days, names[..i], start) + (if days[names[i]].date < start then [] else DayVisits(o, names[i], days[names[i]].trajectories))
  {
    assert names[..i + 1][..i] == names[..i];
  }

  lemma DayVisitsSnoc(o: Outcome, day: string, ts: seq<Trajectory>, j: int)
    requires 0 <= j < |ts|
    ensures DayVisits(o, day, ts[..j + 1]) ==
      DayVisits(o, day, ts[..j]) + (if ts[j].isDir then [Visit(RelPath(o, day, ts[j].name), ts[j])] else [])
  {
    assert ts[..j + 1][..j] == ts[..j];
  }

  lemma Associative(a: seq<Visit>, b: seq<Visit>, c: seq<Visit>)
    ensures a + (b + c) == (a + b) + c
  {
  }

  /** The trajectory loop of one day directory. */
  method IndexDay(c: Cache, lab: string, o: Outcome, day: string, ts: seq<Trajectory>, ghost l0: Ledger, ghost before: seq<Visit>)
    requires Ledger(c.indexed, c.errored) == IndexAll(l0, lab, o, before)
    modifies c`indexed, c`errored
    ensures Ledger(c.indexed, c.errored) == IndexAll(l0, lab, o, before + DayVisits(o, day, ts))
  {
    var j := 0;
    assert ts[..0] == [] && before + [] == before;
    while j < |ts|
      invariant 0 <= j <= |ts|
      invariant Ledger(c.indexed, c.errored) == IndexAll(l0, lab, o, before + DayVisits(o, day, ts[..j]))
    {
      var t := ts[j];
      DayVisitsSnoc(o, day, ts, j);
      ghost var done := before + DayVisits(o, day, ts[..j]);
      if t.isDir {
        var v := Visit(RelPath(o, day, t.name), t);
        Associative(before, DayVisits(o, day, ts[..j]), [v]);
        IndexAllSnoc(l0, lab, o, done, v);
        IndexTrajectory(c, lab, o, v);
      } else {
        assert DayVisits(o, day, ts[..j]) + [] == DayVisits(o, day, ts[..j]);
      }
      j := j + 1;
    }
    assert ts[..j] == ts;
  }

  /** One trajectory directory. */
  method IndexTrajectory(c: Cache, lab: string, o: Outcome, v: Visit)
    modifies c`indexed, c`errored
    ensures Ledger(c.indexed, c.errored) == IndexOne(old(Ledger(c.indexed, c.errored)), lab, o, v)
  {
    var t := v.trajectory;
    if t.user.None? || t.userId.None? {
      c.errored := c.errored.With(o, PyDict.Put(c.errored.At(o), v.relPath, "Missing/Invalid HDF5"));
      return;
    }
    var uuid := lab + "+" + t.userId.value + "+" + t.timestamp;
    if !t.svoFiles {
      c.errored := c.errored.With(o, PyDict.Put(c.errored.At(o), v.relPath, "Missing SVO Files"));
      return;
    }
    c.indexed := c.indexed.With(o, PyDict.Put(c.indexed.At(o), uuid, v.relPath));
    c.errored := c.errored.With(o, PyDict.Pop(c.errored.At(o), v.relPath));
  }

  /** `run_processing` over the cache's `processed_uuids` and
      `errored_paths`; `indexed_uuids` is only read. */
  method RunProcessing(c: Cache, checks: string -> Checks)
    requires ValidByOutcome(c.indexed)
    modifies c`processed, c`errored
    ensures Ledger(c.processed, c.errored) == Processing(old(Ledger(c.processed, c.errored)), c.indexed, checks)
    ensures c.indexed == old(c.indexed)
  {
    ghost var l0 := Ledger(c.processed, c.errored);
    var outcomes := [Success, Failure];
    var i := 0;
    while i < 2
      invariant 0 <= i <= 2
      invariant i == 0 ==> Ledger(c.processed, c.errored) == l0
      invariant i == 1 ==> Ledger(c.processed, c.errored) == ProcessOutcome(l0, c.indexed, checks, Success)
      invariant i == 2 ==> Ledger(c.processed, c.errored) == Processing(l0, c.indexed, checks)
    {
      ProcessItems(c, outcomes[i], checks);
      i := i + 1;
    }
  }

  /** The loop over `indexed_uuids[o].items()`. */
  method ProcessItems(c: Cache, o: Outcome, checks: string -> Checks)
    requires ValidByOutcome(c.indexed)
    modifies c`processed, c`errored
    ensures Ledger(c.processed, c.errored) == ProcessOutcome(old(Ledger(c.processed, c.errored)), c.indexed, checks, o)
  {
    ghost var l0 := Ledger(c.processed, c.errored);
    var keys := c.indexed.At(o).order;
    var items := c.indexed.At(o).values;
    var i := 0;
    while i < |keys|
      invariant 0 <= i <= |keys|
      invariant Ledger(c.processed, c.errored) == ProcessAll(l0, o, keys[..i], items, checks)
    {
      var uuid := keys[i];
      var rel := items[uuid];
      assert keys[..i + 1] == keys[..i] + [uuid];
      ProcessAllSnoc(l0, o, keys[..i], uuid, items, checks);
      ProcessTrajectory(c, o, uuid, rel, checks(rel));
      i := i + 1;
    }
    assert keys[..i] == keys;
  }

  /** One item: skipped when already processed; otherwise each failing
      check records its message, and a trajectory that converts and
      validates is processed and its error cleared. */
  method ProcessTrajectory(c: Cache, o: Outcome, uuid: string, rel: string, result: Checks)
    modifies c`processed, c`errored
    ensures Ledger(c.processed, c.errored) == ProcessOne(old(Ledger(c.processed, c.errored)), o, uuid, rel, result)
  {
    if uuid in c.processed.At(o).values {
      return;
    }
    if !result.parsed {
      c.errored := c.errored.With(o, PyDict.Put(c.errored.At(o), rel, "JSON Metadata Parse Error"));
    }
    if !result.converted {
      c.errored := c.errored.With(o, PyDict.Put(c.errored.At(o), rel, "Corrupted SVO / Failed Conversion"));
      return;
    }
    if !result.complete {
      c.errored := c.errored.With(o, PyDict.Put(c.errored.At(o), rel, "Incomplete Metadata Record!"));
      return;
    }
    c.processed := c.processed.With(o, PyDict.Put(c.processed.At(o), uuid, rel));
    c.errored := c.errored.With(o, PyDict.Pop(c.errored.At(o), rel));
  }
}
