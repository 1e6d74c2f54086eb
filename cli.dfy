/** The script as a whole (src/cli.js): load the configuration, settle the
    cleanup of the destination directories, compile every file the glob
    matches, and decide the exit status. The matches arrive one at a time;
    each job is run to completion before the next match, one of the orders
    in which the real, concurrent jobs can settle. */
module Cli {
  import opened Wrappers
  import opened Paths
  import opened FileSystem
  import opened DirCreator
  import opened Config
  import opened Compile
  import opened Coordinator

  /** The status each job settles with. */
  function Statuses(oks: seq<bool>): (r: seq<JobStatus>)
    ensures |r| == |oks|
    ensures forall k | 0 <= k < |oks| :: r[k] == (if oks[k] then Succeeded else Failed)
  {
    seq(|oks|, k requires 0 <= k < |oks| => if oks[k] then Succeeded else Failed)
  }

  /** A job pushed and settled before `end` extends the list of statuses. */
  lemma MatchThenSettle(oks: seq<bool>, ok: bool)
    ensures var s := RunState(Statuses(oks), None, false);
      Step(Step(s, Match), Settled(|oks|, ok)) == RunState(Statuses(oks + [ok]), None, false)
  {
    assert Statuses(oks + [ok]) == (Statuses(oks) + [Pending])[|oks| := if ok then Succeeded else Failed];
  }

  /** At `end`, the run finishes exactly when every job succeeded. */
  lemma EndAfterJobs(oks: seq<bool>)
    ensures Step(RunState(Statuses(oks), None, false), End).finished <==> forall k | 0 <= k < |oks| :: oks[k]
  {
    var st := Statuses(oks);
    if forall k | 0 <= k < |oks| :: oks[k] {
      assert AllSucceeded(st, |st|);
    } else {
      var k :| 0 <= k < |oks| && !oks[k];
      assert st[k] == Failed;
    }
  }

  /** The jobs of the matches, one after another, each on the table and
      disk the previous ones left; the booleans are whether each resolved. */
  function Jobs(cwd: Path, m: Memo, cfg: Config, cleaned: Outcome, matches: seq<seq<string>>, transform: Transform)
    : (r: (Memo, seq<bool>))
    requires cwd in m.entries
    ensures |r.1| == |matches|
    ensures Keeps(m.entries, r.0.entries)
    ensures r.0.disk.sources == m.disk.sources && r.0.disk.denied == m.disk.denied
    decreases |matches|
  {
    if matches == [] then (m, [])
    else
      var r1 := Jobs(cwd, m, cfg, cleaned, matches[..|matches| - 1], transform);
      var r2 := Job(cwd, r1.0, cfg, cleaned, matches[|matches| - 1], transform);
      KeepsTransitive(m.entries, r1.0.entries, r2.0.entries);
      (r2.0, r1.1 + [r2.1])
  }

  /** The run's results: on a disk with directories `dirs` (the working
      directory among them), refused paths `denied` and source files
      `sources`, after the cleanup settled with `deletions`, each match's
      job in order. */
  function RunResults(cwd: Path, raw: RawConfig, dirs: set<Path>, denied: set<Path>, sources: map<Path, string>,
                      deletions: seq<Outcome>, matches: seq<seq<string>>, transform: Transform): seq<bool>
  {
    Jobs(cwd, SeededTable(cwd, Disk(dirs, denied, sources, [], [], [])), Loaded(cwd, raw), Barrier(deletions),
         matches, transform).1
  }

  /** The `k`-th job runs on what the jobs before it left, which still
      satisfies the table invariant. */
  lemma {:induction false} JobsIndex(cwd: Path, m: Memo, cfg: Config, cleaned: Outcome, matches: seq<seq<string>>,
                                     transform: Transform, k: nat)
    requires MemoInv(cwd, m) && k < |matches|
    ensures var before := Jobs(cwd, m, cfg, cleaned, matches[..k], transform).0;
      && MemoInv(cwd, before)
      && Jobs(cwd, m, cfg, cleaned, matches, transform).1[k] == Job(cwd, before, cfg, cleaned, matches[k], transform).1
    decreases |matches|
  {
    JobsInv(cwd, m, cfg, cleaned, matches[..k], transform);
    var init := matches[..|matches| - 1];
    var r1 := Jobs(cwd, m, cfg, cleaned, init, transform);
    var r2 := Job(cwd, r1.0, cfg, cleaned, matches[|matches| - 1], transform);
    assert Jobs(cwd, m, cfg, cleaned, matches, transform).1 == r1.1 + [r2.1];
    if k < |init| {
      JobsIndex(cwd, m, cfg, cleaned, init, transform, k);
      assert init[..k] == matches[..k];
      assert (r1.1 + [r2.1])[k] == r1.1[k];
    } else {
      assert k == |init|;
      assert init == matches[..k];
    }
  }

  /** The jobs keep the table invariant. */
  lemma {:induction false} JobsInv(cwd: Path, m: Memo, cfg: Config, cleaned: Outcome, matches: seq<seq<string>>,
                                   transform: Transform)
    requires MemoInv(cwd, m)
    ensures MemoInv(cwd, Jobs(cwd, m, cfg, cleaned, matches, transform).0)
    decreases |matches|
  {
    if matches != [] {
      var init := matches[..|matches| - 1];
      JobsInv(cwd, m, cfg, cleaned, init, transform);
      JobFacts(cwd, Jobs(cwd, m, cfg, cleaned, init, transform).0, cfg, cleaned, matches[|matches| - 1], transform);
    }
  }

  /** A job whose source file does not exist fails. */
  lemma MissingSourceFails(cwd: Path, m: Memo, cfg: Config, cleaned: Outcome, matches: seq<seq<string>>,
                           transform: Transform, k: nat)
    requires MemoInv(cwd, m) && k < |matches| && cfg.source + matches[k] !in m.disk.sources
    ensures !Jobs(cwd, m, cfg, cleaned, matches, transform).1[k]
  {
    JobsIndex(cwd, m, cfg, cleaned, matches, transform, k);
  }

  /** A job fails when the transform throws, or returns no map, for any
      one of the builds. */
  lemma TransformFailureFails(cwd: Path, m: Memo, cfg: Config, cleaned: Outcome, matches: seq<seq<string>>,
                              transform: Transform, k: nat, i: nat)
    requires MemoInv(cwd, m) && k < |matches| && i < |cfg.builds|
    requires var path := cfg.source + matches[k];
      path in m.disk.sources &&
      PlanFor(cfg.source, cfg.builds[i], matches[k], m.disk.sources[path], transform).emitted.Failure?
    ensures !Jobs(cwd, m, cfg, cleaned, matches, transform).1[k]
  {
    JobsIndex(cwd, m, cfg, cleaned, matches, transform, k);
  }

  /** A failed cleanup fails every job, as soon as there is a build. */
  lemma PoisonedCleanupFails(cwd: Path, m: Memo, cfg: Config, cleaned: Outcome, matches: seq<seq<string>>,
                             transform: Transform, k: nat)
    requires MemoInv(cwd, m) && k < |matches| && cleaned.Poisoned? && cfg.builds != []
    ensures !Jobs(cwd, m, cfg, cleaned, matches, transform).1[k]
  {
    JobsIndex(cwd, m, cfg, cleaned, matches, transform, k);
  }

  /** The transform never throws and always returns a map. */
  ghost predicate NeverThrows(transform: Transform)
  {
    forall code, options :: transform(code, options).Success? && transform(code, options).value.sourceMap.Some?
  }

  /** With its source present, a transform that never throws, every
      output directory below `cwd`, a successful cleanup and a disk that
      refuses nothing, a job succeeds and every entry stays ready. */
  lemma JobSucceeds(cwd: Path, m: Memo, cfg: Config, filename: seq<string>, transform: Transform)
    requires MemoInv(cwd, m) && AllReady(m.entries) && m.disk.denied == {} && NeverThrows(transform)
    requires forall i | 0 <= i < |cfg.builds| :: Under(cwd, cfg.builds[i].dir)
    requires filename != [] && cfg.source + filename in m.disk.sources
    ensures var (m', ok) := Job(cwd, m, cfg, Ready, filename, transform);
      ok && MemoInv(cwd, m') && AllReady(m'.entries)
  {
    var path := cfg.source + filename;
    var m1 := m.(disk := m.disk.(readLog := m.disk.readLog + [path]));
    InvIgnoresLogs(cwd, m, m1.disk.readLog, m.disk.writeLog);
    var plans := Plans(cfg.source, cfg.builds, filename, m.disk.sources[path], transform);
    forall j | 0 <= j < |plans|
      ensures plans[j].emitted.Success? && plans[j].outDir == Dirname(plans[j].outFile) && Under(cwd, plans[j].outDir)
    {
      PlanUnder(cwd, cfg.source, cfg.builds[j], filename, m.disk.sources[path], transform);
    }
    TasksSucceed(cwd, m1, plans);
  }

  /** The same for every job of a run. */
  lemma {:induction false} JobsSucceed(cwd: Path, m: Memo, cfg: Config, matches: seq<seq<string>>, transform: Transform)
    requires MemoInv(cwd, m) && AllReady(m.entries) && m.disk.denied == {} && NeverThrows(transform)
    requires forall i | 0 <= i < |cfg.builds| :: Under(cwd, cfg.builds[i].dir)
    requires forall k | 0 <= k < |matches| :: matches[k] != [] && cfg.source + matches[k] in m.disk.sources
    ensures var r := Jobs(cwd, m, cfg, Ready, matches, transform);
      && MemoInv(cwd, r.0) && AllReady(r.0.entries)
      && forall k | 0 <= k < |matches| :: r.1[k]
    decreases |matches|
  {
    if matches != [] {
      var init := matches[..|matches| - 1];
      var last := matches[|matches| - 1];
      assert forall k | 0 <= k < |init| :: init[k] == matches[k];
      JobsSucceed(cwd, m, cfg, init, transform);
      var r1 := Jobs(cwd, m, cfg, Ready, init, transform);
      JobSucceeds(cwd, r1.0, cfg, last, transform);
      var r2 := Job(cwd, r1.0, cfg, Ready, last, transform);
      var oks := r1.1 + [r2.1];
      assert Jobs(cwd, m, cfg, Ready, matches, transform) == (r2.0, oks);
      forall k | 0 <= k < |matches| ensures oks[k] {
        if k < |init| { assert oks[k] == r1.1[k]; } else { assert k == |init|; }
      }
    }
  }

  /** The run fails when the source of some match does not exist. */
  lemma RunFailsOnMissingSource(cwd: Path, raw: RawConfig, dirs: set<Path>, denied: set<Path>, sources: map<Path, string>,
                                deletions: seq<Outcome>, matches: seq<seq<string>>, transform: Transform, k: nat)
    requires cwd in dirs && k < |matches| && Loaded(cwd, raw).source + matches[k] !in sources
    ensures !RunResults(cwd, raw, dirs, denied, sources, deletions, matches, transform)[k]
  {
    InitialInv(cwd, Disk(dirs, denied, sources, [], [], []));
    MissingSourceFails(cwd, SeededTable(cwd, Disk(dirs, denied, sources, [], [], [])), Loaded(cwd, raw),
                       Barrier(deletions), matches, transform, k);
  }

  /** The run fails when the transform fails on some match for some
      build. */
  lemma RunFailsOnTransform(cwd: Path, raw: RawConfig, dirs: set<Path>, denied: set<Path>, sources: map<Path, string>,
                            deletions: seq<Outcome>, matches: seq<seq<string>>, transform: Transform, k: nat, i: nat)
    requires cwd in dirs && k < |matches| && i < |raw.builds|
    requires var cfg := Loaded(cwd, raw);
      var path := cfg.source + matches[k];
      path in sources && PlanFor(cfg.source, cfg.builds[i], matches[k], sources[path], transform).emitted.Failure?
    ensures !RunResults(cwd, raw, dirs, denied, sources, deletions, matches, transform)[k]
  {
    InitialInv(cwd, Disk(dirs, denied, sources, [], [], []));
    TransformFailureFails(cwd, SeededTable(cwd, Disk(dirs, denied, sources, [], [], [])), Loaded(cwd, raw),
                          Barrier(deletions), matches, transform, k, i);
  }

  /** The run fails at every match when the cleanup failed and there is a
      build. */
  lemma RunFailsOnCleanup(cwd: Path, raw: RawConfig, dirs: set<Path>, denied: set<Path>, sources: map<Path, string>,
                          deletions: seq<Outcome>, matches: seq<seq<string>>, transform: Transform, k: nat)
    requires cwd in dirs && k < |matches| && raw.builds != [] && Barrier(deletions).Poisoned?
    ensures !RunResults(cwd, raw, dirs, denied, sources, deletions, matches, transform)[k]
  {
    InitialInv(cwd, Disk(dirs, denied, sources, [], [], []));
    PoisonedCleanupFails(cwd, SeededTable(cwd, Disk(dirs, denied, sources, [], [], [])), Loaded(cwd, raw),
                         Barrier(deletions), matches, transform, k);
  }

  /** In the favourable case every job of the run succeeds: every
      deletion succeeded, nothing is refused, the transform never throws,
      every output directory lies below `cwd` and every match has a
      source. */
  lemma RunSucceeds(cwd: Path, raw: RawConfig, dirs: set<Path>, sources: map<Path, string>,
                    deletions: seq<Outcome>, matches: seq<seq<string>>, transform: Transform)
    requires cwd in dirs && NeverThrows(transform)
    requires forall i | 0 <= i < |deletions| :: deletions[i] == Ready
    requires forall i | 0 <= i < |raw.builds| :: Under(cwd, BuildOf(cwd, raw.builds[i], i, raw.defaults).dir)
    requires forall k | 0 <= k < |matches| ::
               matches[k] != [] && NormaliseSource(cwd, raw.source) + matches[k] in sources
    ensures forall k | 0 <= k < |matches| :: RunResults(cwd, raw, dirs, {}, sources, deletions, matches, transform)[k]
  {
    var disk := Disk(dirs, {}, sources, [], [], []);
    var cfg := Loaded(cwd, raw);
    assert forall i | 0 <= i < |cfg.builds| :: cfg.builds[i] == BuildOf(cwd, raw.builds[i], i, raw.defaults);
    InitialInv(cwd, disk);
    JobsSucceed(cwd, SeededTable(cwd, disk), cfg, matches, transform);
  }

  /** `glob.on('match', filename => jobs.push(compile(filename)))`, with the
      job run until it settles. */
  method HandleMatch(completion: Completion, creator: DirectoryCreator, cfg: Config, cleaned: Outcome,
                     filename: seq<string>, transform: Transform)
    returns (ok: bool)
    requires creator.Valid()
    modifies completion, creator, creator.fs
    ensures creator.Valid()
    ensures (creator.Table(), ok) == Job(creator.cwd, old(creator.Table()), cfg, cleaned, filename, transform)
    ensures completion.State() == Step(Step(old(completion.State()), Match), Settled(|old(completion.jobs)|, ok))
    ensures cleaned.Poisoned? && cfg.builds != [] ==> !ok
  {
    var job := completion.OnMatch();
    ghost var matched := completion.State();
    var ok', plans := CompileFile(creator, cfg, cleaned, filename, transform);
    ok := ok';
    assert completion.State() == matched;
    completion.OnSettle(job, ok);
  }

  /** Runs the build over a filesystem with directories `dirs` (the working
      directory among them, and every destination directory as it is after
      the cleanup: one whose deletion succeeded is still there unless
      `dirs` leaves it out), paths that refuse to be created or written,
      and the source files; `deletions` are the outcomes of deleting each
      destination directory and `matches` the files the glob reports, in
      order. Returns the exit status and each job's success. */
  method BuildAll(cwd: Path, raw: RawConfig, dirs: set<Path>, denied: set<Path>, sources: map<Path, string>,
                  deletions: seq<Outcome>, matches: seq<seq<string>>, transform: Transform)
    returns (code: int, oks: seq<bool>)
    requires cwd in dirs
    // one deletion per destination directory
    requires |deletions| == |raw.builds|
    ensures oks == RunResults(cwd, raw, dirs, denied, sources, deletions, matches, transform)
    ensures |oks| == |matches|
    ensures code == 0 <==> forall k | 0 <= k < |oks| :: oks[k]
    ensures code == 1 <==> exists k | 0 <= k < |oks| :: !oks[k]
    // a failed cleanup fails every job, so any match makes the run fail
    ensures Barrier(deletions).Poisoned? && raw.builds != [] && matches != [] ==> code == 1
  {
    var cfg := Load(cwd, raw);
    var cleaned := Barrier(deletions);
    var fs := new FileSystem(dirs, denied, sources);
    var creator := new DirectoryCreator(cwd, fs);
    var completion := new Completion();
    ghost var m0 := creator.Table();
    ghost var done: seq<seq<string>> := [];
    oks := [];
    for k := 0 to |matches|
      invariant done == matches[..k]
      invariant creator.Valid() && creator.fs == fs && creator.cwd == cwd
      invariant (creator.Table(), oks) == Jobs(cwd, m0, cfg, cleaned, done, transform)
      invariant completion.State() == RunState(Statuses(oks), None, false)
    {
      var ok := HandleMatch(completion, creator, cfg, cleaned, matches[k], transform);
      MatchThenSettle(oks, ok);
      SliceStep(matches, k);
      assert (done + [matches[k]])[..|done|] == done;
      done := done + [matches[k]];
      oks := oks + [ok];
    }
    assert done == matches;
    EndAfterJobs(oks);
    completion.OnEnd();
    code := completion.BeforeExit();
    if cleaned.Poisoned? && raw.builds != [] && matches != [] {
      RunFailsOnCleanup(cwd, raw, dirs, denied, sources, deletions, matches, transform, 0);
    }
  }
}
