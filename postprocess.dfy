/** The driver of scripts/postprocess.py: the registry of labs and
    members and the alias table built from it, the choice between a fresh
    and a stored cache, which stages are entered, and the summary printed
    once the stages end, however they end. */
module Postprocess {
  import opened Wrappers
  import Stages

  // ---------------------------------------------------------------- the registry

  datatype Member = Member(name: string, id: string)

  datatype Lab = Lab(name: string, members: seq<Member>)

  /** `REGISTERED_MEMBERS`, labs in the order they are listed. */
  const RegisteredMembers: seq<Lab> := [
    Lab("AUTOLab", [Member("Lawrence Chen", "0d4edc83"), Member("Roy Lin", "84bd5053"), Member("Zehan Ma", "5d05c5aa")]),
    Lab("CLVR", [Member("Minho Heo", "236539bc"), Member("Sungjae Park", "13759f6e")]),
    Lab("GuptaLab", [Member("Mohan Kumar", "553d1bd5")]),
    Lab("ILIAD", [Member("Suneel Belkhale", "sbd7d2c6"), Member("Evelyn Choi", "7e97d04f"), Member("Joey Hejna", "j807b3f8"),
                  Member("Sidd Karamcheti", "s43a277k"), Member("Yilin Wu", "7ae1bcff")]),
    Lab("IPRL", [Member("Rishi Bedi", "c850f181"), Member("Marion Lepert", "7790ec0a"), Member("Daniel Morton", "edf28ef3"),
                 Member("Jimmy Wu", "w026bb9b")]),
    Lab("IRIS", [Member("Antonio Herrera", "938130c4"), Member("Kaylee Burns", "y2a59979"), Member("Ethan Foster", "7dfa2da3"),
                 Member("Alexander Khazatsky", "ef107c48"), Member("Emma Klemperer", "m8e51622")]),
    Lab("PennPAL", [Member("Yunshuang Li", "acda9df3"), Member("Jason Ma", "c5f808b7"), Member("Vaidehi Som", "06b0ffa5")]),
    Lab("RAIL", [Member("Christian Avina", "ah6fcd56"), Member("Samantha Huang", "d027f2ae"), Member("Caroline Johnson", "80edfcb1"),
                 Member("Emi Tran", "t3d58310"), Member("Homer Walke", "eh61f232")]),
    Lab("REAL", [Member("Glen Berseth", "9f2719b2"), Member("Paul Crouther", "abf65a9e"), Member("Kirsty Ellis", "4dbb5646"),
                 Member("Cassandre Hamel", "b04f2af4"), Member("Amine Obeid", "75b7b0f9"), Member("Samy Rasmy", "a73643bb"),
                 Member("Heng Wei", "4f8ca688"), Member("Albert Zhan", "de601749")]),
    Lab("TRI", [Member("Suraj Nair", "4b1a56cc"), Member("Antonio Herrera", "938130c4")])
  ]

  /** The explicit aliases listed after the members. */
  const ExplicitAliases: map<string, (string, string)> := map["Sasha Khazatsky" := ("IRIS", "Alexander Khazatsky")]

  function Names(lab: Lab): set<string>
  {
    set i | 0 <= i < |lab.members| :: lab.members[i].name
  }

  /** The name of the last lab that lists member `n`. */
  function LastLab(labs: seq<Lab>, n: string): (r: Option<string>)
    ensures r.Some? <==> exists i :: 0 <= i < |labs| && n in Names(labs[i])
    ensures r.Some? ==> exists i :: 0 <= i < |labs| && labs[i].name == r.value && n in Names(labs[i])
                                    && forall j :: i < j < |labs| ==> n !in Names(labs[j])
    decreases |labs|
  {
    if labs == [] then None
    else if n in Names(labs[|labs| - 1]) then Some(labs[|labs| - 1].name)
    else
      var r := LastLab(labs[..|labs| - 1], n);
      assert forall i :: 0 <= i < |labs| - 1 ==> labs[..|labs| - 1][i] == labs[i];
      r
  }

  /** One lab's part of the comprehension: each member maps to the lab and
      their own name. */
  function LabAliases(lab: Lab): map<string, (string, string)>
  {
    map n | n in Names(lab) :: (lab.name, n)
  }

  /** `{user: (lab, user) for lab, users in members.items() for user in
      users}`: a later lab's entry replaces an earlier one's. */
  function MemberAliases(labs: seq<Lab>): map<string, (string, string)>
    decreases |labs|
  {
    if labs == [] then map[]
    else MemberAliases(labs[..|labs| - 1]) + LabAliases(labs[|labs| - 1])
  }

  /** `REGISTERED_ALIASES`: the member entries, then the explicit aliases. */
  function Aliases(labs: seq<Lab>, explicit: map<string, (string, string)>): map<string, (string, string)>
  {
    MemberAliases(labs) + explicit
  }

  const RegisteredAliases: map<string, (string, string)> := Aliases(RegisteredMembers, ExplicitAliases)

  /** Every registered member resolves to themself in the last lab that
      lists them, and nothing else comes from the members. */
  lemma {:induction false} MembersResolveToLastLab(labs: seq<Lab>)
    ensures forall n :: n in MemberAliases(labs) <==> LastLab(labs, n).Some?
    ensures forall n :: n in MemberAliases(labs) ==> MemberAliases(labs)[n] == (LastLab(labs, n).value, n)
    decreases |labs|
  {
    if labs != [] {
      MembersResolveToLastLab(labs[..|labs| - 1]);
    }
  }

  /** A name is an alias exactly when it is explicit or registered; an
      explicit alias wins over a member entry, and any other registered name
      resolves to the last lab that lists it. */
  lemma AliasesResolve(labs: seq<Lab>, explicit: map<string, (string, string)>)
    ensures forall n :: n in Aliases(labs, explicit) <==> n in explicit || LastLab(labs, n).Some?
    ensures forall n :: n in explicit ==> Aliases(labs, explicit)[n] == explicit[n]
    ensures forall n :: n !in explicit && LastLab(labs, n).Some? ==> Aliases(labs, explicit)[n] == (LastLab(labs, n).value, n)
  {
    MembersResolveToLastLab(labs);
  }

  /** Listed under both IRIS and TRI, "Antonio Herrera" resolves to TRI, the
      later of the two. */
  lemma AntonioHerreraResolvesToTri()
    ensures "Antonio Herrera" in RegisteredAliases
    ensures RegisteredAliases["Antonio Herrera"] == ("TRI", "Antonio Herrera")
  {
    var tri := RegisteredMembers[9];
    assert tri.members[1].name == "Antonio Herrera";
    LastListedWins(RegisteredMembers, ExplicitAliases, "Antonio Herrera");
  }

  /** A member of the last lab resolves to that lab unless an explicit alias
      takes the name. */
  lemma LastListedWins(labs: seq<Lab>, explicit: map<string, (string, string)>, n: string)
    requires labs != [] && n in Names(labs[|labs| - 1]) && n !in explicit
    ensures n in Aliases(labs, explicit) && Aliases(labs, explicit)[n] == (labs[|labs| - 1].name, n)
  {
  }

  /** `(lab, name)` names a lab and one of its registered members. */
  predicate Canonical(labs: seq<Lab>, pair: (string, string))
  {
    exists i :: 0 <= i < |labs| && labs[i].name == pair.0 && pair.1 in Names(labs[i])
  }

  /** When the explicit aliases name canonical pairs, every alias does. */
  lemma {:induction false} AliasesAreCanonical(labs: seq<Lab>, explicit: map<string, (string, string)>)
    requires forall n :: n in explicit ==> Canonical(labs, explicit[n])
    ensures forall n :: n in Aliases(labs, explicit) ==> Canonical(labs, Aliases(labs, explicit)[n])
  {
    AliasesResolve(labs, explicit);
    forall n | n in Aliases(labs, explicit) && n !in explicit
      ensures Canonical(labs, Aliases(labs, explicit)[n])
    {
      var i :| 0 <= i < |labs| && labs[i].name == LastLab(labs, n).value && n in Names(labs[i])
               && forall j :: i < j < |labs| ==> n !in Names(labs[j]);
    }
  }

  /** "Sasha Khazatsky" is Alexander Khazatsky of IRIS, so every registered
      alias names a lab and one of its members. */
  lemma RegisteredAliasesAreCanonical()
    ensures forall n :: n in RegisteredAliases ==> Canonical(RegisteredMembers, RegisteredAliases[n])
  {
    var iris := RegisteredMembers[5];
    assert iris.members[3].name == "Alexander Khazatsky";
    assert Canonical(RegisteredMembers, ("IRIS", "Alexander Khazatsky"));
    AliasesAreCanonical(RegisteredMembers, ExplicitAliases);
  }

  // ---------------------------------------------------------------- calling a stage

  /** Whether a call with `positional` positional arguments and the given
      keyword arguments binds to a function whose parameters are `params`,
      none of them with a default: every keyword must name a parameter not
      filled positionally, and every such parameter must be named. */
  function Bind(params: seq<string>, positional: nat, keywords: seq<string>): (r: Result<()>)
    ensures r.Ok? <==> positional <= |params| && (forall k :: k in keywords ==> k in params[positional..])
                       && (forall p :: p in params[positional..] ==> p in keywords)
    ensures r.Err? ==> r.error == TypeError
  {
    if positional > |params| then Err(TypeError)
    else if exists k :: k in keywords && k !in params[positional..] then Err(TypeError)
    else if exists p :: p in params[positional..] && p !in keywords then Err(TypeError)
    else Ok(())
  }

  /** The parameters of `run_indexing` and `run_processing`. */
  const IndexingParameters: seq<string> :=
    ["data_dir", "lab", "start_datetime", "aliases", "members", "indexed_uuids", "errored_paths"]
  const ProcessingParameters: seq<string> :=
    ["data_dir", "lab", "aliases", "members", "indexed_uuids", "processed_uuids", "errored_paths"]

  /** The keywords `postprocess` passes after three and two positional
      arguments. */
  const IndexingKeywords: seq<string> :=
    ["aliases", "members", "totals", "scanned_paths", "indexed_uuids", "errored_paths"]
  const ProcessingKeywords: seq<string> :=
    ["aliases", "members", "totals", "indexed_uuids", "processed_uuids", "errored_paths"]

  /** Both stage calls pass `totals`, which neither stage takes: each raises
      `TypeError` before its stage starts. */
  lemma StageCallsRaise()
    ensures Bind(IndexingParameters, 3, IndexingKeywords) == Err(TypeError)
    ensures Bind(ProcessingParameters, 2, ProcessingKeywords) == Err(TypeError)
  {
    assert IndexingKeywords[2] == "totals" && ProcessingKeywords[2] == "totals";
    assert forall p :: p in IndexingParameters[3..] ==> |p| != 6 || p[0] != 't';
    assert forall p :: p in ProcessingParameters[2..] ==> |p| != 6 || p[0] != 't';
  }

  // ---------------------------------------------------------------- the run

  /** `R2D2UploadConfig`, without the paths. */
  datatype Config = Config(lab: string, startDate: string, doIndex: bool, doProcess: bool, doUpload: bool)

  datatype Stage = Indexing | Processing | Uploading

  /** What the summary prints: the five totals, then the errors of each
      outcome. */
  datatype Summary = Summary(scanned: int, indexed: int, processed: int, uploaded: int, errors: int,
                             successErrors: int, failureErrors: int)

  function Total(c: Stages.Counts): int
  {
    c.success + c.failure
  }

  /** The summary of a cache's totals. */
  function Summarize(t: Stages.Totals): (s: Summary)
    ensures s.errors == s.successErrors + s.failureErrors
  {
    Summary(Total(t.scanned), Total(t.indexed), Total(t.processed), Total(t.uploaded), Total(t.errored),
            t.errored.success, t.errored.failure)
  }

  /** A fresh cache sums to nothing. */
  lemma FreshSummaryIsZero()
    ensures Summarize(Stages.Totals(Stages.ZeroCounts, Stages.ZeroCounts, Stages.ZeroCounts, Stages.ZeroCounts, Stages.ZeroCounts))
            == Summary(0, 0, 0, 0, 0, 0, 0)
  {
  }

  /** Whether a stored cache is used: only one with the same `start_date`. */
  predicate UseStored(cfg: Config, stored: Option<Stages.Cache>)
    reads if stored.Some? then {stored.value} else {}
  {
    stored.Some? && stored.value.startDate == cfg.startDate
  }

  /** The stages entered, in order: a stage is entered only when its flag
      is set and every earlier stage entered returned. */
  function Entered(cfg: Config, startParses: bool): (r: seq<Stage>)
    ensures Indexing in r <==> startParses && cfg.doIndex
    ensures Processing in r <==> startParses && !cfg.doIndex && cfg.doProcess
    ensures Uploading in r <==> startParses && !cfg.doIndex && !cfg.doProcess && cfg.doUpload
  {
    if !startParses then []
    else if cfg.doIndex then [Indexing]
    else if cfg.doProcess then [Processing]
    else if cfg.doUpload then [Uploading]
    else []
  }

  /** `postprocess(cfg)`. `stored` is the cache found in `cache_dir`,
      `startDate` what `parse_datetime` makes of `cfg.start_date` (`None`
      when it raises), and `upload` the outcome of the upload stage. The
      cache is dumped and summarised on every path: `summary` is what the
      `finally` block prints. */
  method Run(cfg: Config, stored: Option<Stages.Cache>, startDate: Option<int>, upload: Result<()>)
    returns (cache: Stages.Cache, entered: seq<Stage>, summary: Summary, r: Result<()>)
    ensures UseStored(cfg, stored) ==> cache == stored.value
    ensures !UseStored(cfg, stored) ==>
      fresh(cache) && cache.lab == cfg.lab && cache.startDate == cfg.startDate
      && cache.totals == Stages.Totals(Stages.ZeroCounts, Stages.ZeroCounts, Stages.ZeroCounts, Stages.ZeroCounts, Stages.ZeroCounts)
      && cache.scannedPaths == Stages.NoneYet && cache.indexed == Stages.NoneYet && cache.processed == Stages.NoneYet
      && cache.uploaded == Stages.NoneYet && cache.errored == Stages.NoneYet
    ensures entered == Entered(cfg, startDate.Some?)
    ensures r == if startDate.None? then Err(ValueError)
                 else if cfg.doIndex || cfg.doProcess then Err(TypeError)
                 else if cfg.doUpload then upload
                 else Ok(())
    ensures summary == Summarize(cache.totals)
  {
    cache := LoadCache(cfg, stored);
    entered, r := RunStages(cfg, startDate, upload);
    summary := Summarize(cache.totals);
  }

  /** The fresh cache, replaced by the stored one when its `start_date`
      matches. */
  method LoadCache(cfg: Config, stored: Option<Stages.Cache>) returns (cache: Stages.Cache)
    ensures UseStored(cfg, stored) ==> cache == stored.value
    ensures !UseStored(cfg, stored) ==>
      fresh(cache) && cache.lab == cfg.lab && cache.startDate == cfg.startDate
      && cache.totals == Stages.Totals(Stages.ZeroCounts, Stages.ZeroCounts, Stages.ZeroCounts, Stages.ZeroCounts, Stages.ZeroCounts)
      && cache.scannedPaths == Stages.NoneYet && cache.indexed == Stages.NoneYet && cache.processed == Stages.NoneYet
      && cache.uploaded == Stages.NoneYet && cache.errored == Stages.NoneYet
  {
    cache := new Stages.Cache(cfg.lab, cfg.startDate);
    if stored.Some? && stored.value.startDate == cache.startDate {
      cache := stored.value;
    }
  }

  /** The `try` block: the stage calls, as written. */
  method RunStages(cfg: Config, startDate: Option<int>, upload: Result<()>) returns (entered: seq<Stage>, r: Result<()>)
    ensures entered == Entered(cfg, startDate.Some?)
    ensures r == if startDate.None? then Err(ValueError)
                 else if cfg.doIndex || cfg.doProcess then Err(TypeError)
                 else if cfg.doUpload then upload
                 else Ok(())
  {
    entered := [];
    if startDate.None? {
      return entered, Err(ValueError);
    }
    StageCallsRaise();
    if cfg.doIndex {
      entered := entered + [Indexing];
      r := Bind(IndexingParameters, 3, IndexingKeywords);
      if r.Err? {
        return;
      }
    }
    if cfg.doProcess {
      entered := entered + [Processing];
      r := Bind(ProcessingParameters, 2, ProcessingKeywords);
      if r.Err? {
        return;
      }
    }
    r := Ok(());
    if cfg.doUpload {
      entered := entered + [Uploading];
      r := upload;
    }
  }

  /** The stages whose flags are set, in order. */
  function Flagged(cfg: Config): seq<Stage>
  {
    (if cfg.doIndex then [Indexing] else []) + (if cfg.doProcess then [Processing] else [])
    + (if cfg.doUpload then [Uploading] else [])
  }

  /** The cache's `indexed_uuids` and `errored_paths` once indexing, when
      its flag is set, has returned. */
  function AfterIndexing(cfg: Config, l: Stages.Ledger, data: Stages.DataDir, start: int): Stages.Ledger
    requires !(cfg.doIndex && data.success.None?)
  {
    if cfg.doIndex then Stages.Indexing(l, data, cfg.lab, start).value else l
  }

  /** Indexing, when its flag is set, through the cache. */
  method IndexStage(cfg: Config, cache: Stages.Cache, data: Stages.DataDir, start: int) returns (r: Result<()>)
    requires cache.Valid()
    modifies cache`indexed, cache`errored
    ensures cfg.doIndex && data.success.None? ==>
      r == Err(FileNotFoundError) && cache.indexed == old(cache.indexed) && cache.errored == old(cache.errored)
    ensures !(cfg.doIndex && data.success.None?) ==>
      r == Ok(())
      && Stages.Ledger(cache.indexed, cache.errored) == AfterIndexing(cfg, old(Stages.Ledger(cache.indexed, cache.errored)), data, start)
      && Stages.ValidLedger(Stages.Ledger(cache.indexed, cache.errored))
  {
    r := Ok(());
    if cfg.doIndex {
      r := Stages.RunIndexing(cache, data, cfg.lab, start);
    }
  }

  /** The `try` block with the stage calls passing the arguments the stages
      take: indexing, then processing over the indexed uuids, then the
      upload, each when its flag is set; a missing `success/` ends the run
      during indexing with the cache as it was. */
  method RunStagesIntended(cfg: Config, cache: Stages.Cache, data: Stages.DataDir, startDate: Option<int>,
                           checks: string -> Stages.Checks, upload: Result<()>)
    returns (entered: seq<Stage>, r: Result<()>)
    requires cache.Valid()
    modifies cache`indexed, cache`errored, cache`processed
    ensures startDate.None? ==>
      r == Err(ValueError) && entered == []
      && cache.indexed == old(cache.indexed) && cache.errored == old(cache.errored) && cache.processed == old(cache.processed)
    ensures startDate.Some? && cfg.doIndex && data.success.None? ==>
      r == Err(FileNotFoundError) && entered == [Indexing]
      && cache.indexed == old(cache.indexed) && cache.errored == old(cache.errored) && cache.processed == old(cache.processed)
    ensures startDate.Some? && !(cfg.doIndex && data.success.None?) ==>
      var l1 := AfterIndexing(cfg, old(Stages.Ledger(cache.indexed, cache.errored)), data, startDate.value);
      Stages.ValidLedger(l1)
      && cache.indexed == l1.uuids
      && (cfg.doProcess ==>
            Stages.Ledger(cache.processed, cache.errored)
            == Stages.Processing(Stages.Ledger(old(cache.processed), l1.errored), l1.uuids, checks))
      && (!cfg.doProcess ==> cache.processed == old(cache.processed) && cache.errored == l1.errored)
      && entered == Flagged(cfg)
      && r == if cfg.doUpload then upload else Ok(())
  {
    if startDate.None? {
      return [], Err(ValueError);
    }
    r := IndexStage(cfg, cache, data, startDate.value);
    if r.Err? {
      return [Indexing], r;
    }
    if cfg.doProcess {
      Stages.RunProcessing(cache, checks);
    }
    entered := Flagged(cfg);
    r := if cfg.doUpload then upload else Ok(());
  }
}
