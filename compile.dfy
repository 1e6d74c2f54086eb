/** `compile(filename)` (src/cli.js:72-115): read the source once, then for
    every build assemble the transform options, run the (opaque) transform,
    append the source-map trailer, strip the map, and, once the destination
    cleanup has settled and the output directory exists, write the code and
    the map.

    `Task`, `Tasks` and `Job` are the effect of one build's task, of all of
    a file's tasks and of the whole `compile(filename)` on the memo table
    and the disk, as functions; the methods below perform them in place and
    are proved equal to them, and the lemmas state what they mean. */
module Compile {
  import opened Wrappers
  import opened Paths
  import opened Json
  import opened FileSystem
  import opened DirCreator
  import opened Config

  /** What the transform returns: code and a source map object, which is
      `null` when a build's options turn source maps off. */
  datatype Transformed = Transformed(code: string, sourceMap: Option<Fields>)

  /** The transform (Babel), a foreign function of source text and options;
      a `Failure` stands for the exception it throws. */
  type Transform = (string, Fields) -> Result<Transformed, string>

  /** Why a task fails before its first `await`: the transform threw, or it
      returned no map and `delete result.map.names` throws. */
  datatype TaskError = Threw(message: string) | NoMap

  /** `cleaned` (src/cli.js:50): all deletions of the destination
      directories, in the order they settle; the first failure wins. */
  function Barrier(deletions: seq<Outcome>): (r: Outcome)
    ensures r == Ready <==> forall i | 0 <= i < |deletions| :: deletions[i] == Ready
    ensures r.Poisoned? ==> exists i | 0 <= i < |deletions| :: deletions[i] == r
  {
    if deletions == [] then Ready
    else if deletions[0].Poisoned? then deletions[0]
    else Barrier(deletions[1..])
  }

  const IdentityKeys: set<string> := {"ast", "sourceMap", "sourceMapName", "sourceFileName", "sourceRoot"}

  /** The options for one build (src/cli.js:83-89): a fresh base object
      overwritten by every key of the build's options, the five base keys
      included. */
  function TargetOptions(filename: seq<string>, outDirname: Path, source: Path, buildOptions: Fields): (r: Fields)
    ensures r.Keys == IdentityKeys + buildOptions.Keys
    ensures forall k | k in buildOptions :: r[k] == buildOptions[k]
    ensures "ast" !in buildOptions ==> r["ast"] == Bool(false)
    ensures "sourceMap" !in buildOptions ==> r["sourceMap"] == Bool(true)
    ensures "sourceMapName" !in buildOptions ==> r["sourceMapName"] == Str(Basename(filename))
    ensures "sourceFileName" !in buildOptions ==> r["sourceFileName"] == Str(JoinText(filename))
    ensures "sourceRoot" !in buildOptions ==> r["sourceRoot"] == Str(RelativeText(outDirname, source))
  {
    map[
      "ast" := Bool(false),
      "sourceMap" := Bool(true),
      "sourceMapName" := Str(Basename(filename)),
      "sourceFileName" := Str(JoinText(filename)),
      "sourceRoot" := Str(RelativeText(outDirname, source))
    ] + buildOptions
  }

  function Trailer(basename: string): string
  {
    "\n\n//# sourceMappingURL=" + basename + ".map\n"
  }

  /** The written code (src/cli.js:101). */
  function Output(code: string, basename: string): string
  {
    code + Trailer(basename)
  }

  /** Recovers the transform's code from a written file, if it ends with
      the trailer for `basename`. */
  function StripTrailer(text: string, basename: string): Option<string>
  {
    var t := Trailer(basename);
    if |t| <= |text| && text[|text| - |t|..] == t then Some(text[..|text| - |t|]) else None
  }

  /** The written code is the transformed code followed by exactly the
      trailer naming the map file. */
  lemma OutputRoundTrip(code: string, basename: string)
    ensures StripTrailer(Output(code, basename), basename) == Some(code)
    ensures Output(code, basename)[..|code|] == code
  {
    var t := Trailer(basename);
    var s := Output(code, basename);
    assert s[|s| - |t|..] == t;
    assert s[..|s| - |t|] == code;
  }

  /** `delete map.names; delete map.sourcesContent` (src/cli.js:103-104). */
  function StripMap(m: Fields): (r: Fields)
    ensures r.Keys == m.Keys - {"names", "sourcesContent"}
    ensures forall k | k in r :: r[k] == m[k]
  {
    m - {"names", "sourcesContent"}
  }

  /** `outFilenameAbs + '.map'`. */
  function MapPath(outFile: Path): (r: Path)
    ensures Dirname(r) == Dirname(outFile)
  {
    Dirname(outFile) + [Basename(outFile) + ".map"]
  }

  /** Everything one build's task decides before its first `await`. */
  datatype Plan = Plan(outFile: Path, outDir: Path, options: Fields, emitted: Result<Emitted, TaskError>)

  /** What a successful transform leaves to be written (src/cli.js:101-104). */
  datatype Emitted = Emitted(output: string, sourceMap: Fields)

  function PlanFor(source: Path, build: Build, filename: seq<string>, code: string, transform: Transform): (p: Plan)
  {
    var outFile := build.dir + filename;
    var outDir := Dirname(outFile);
    var options := TargetOptions(filename, outDir, source, build.options);
    var emitted := match transform(code, options)
      case Failure(err) => Failure(Threw(err))
      case Success(t) =>
        if t.sourceMap.None? then Failure(NoMap)
        else Success(Emitted(Output(t.code, Basename(filename)), StripMap(t.sourceMap.value)));
    Plan(outFile, outDir, options, emitted)
  }

  /** The plan of one build: the options are those of `TargetOptions` for
      its output directory, the transform is run once on the source text
      with them, a throw from it or a missing map fails the task, and
      otherwise the code to write is the transformed code followed by the
      trailer and the map to write is the transform's map without `names`
      and `sourcesContent`. */
  lemma PlanEmits(source: Path, build: Build, filename: seq<string>, code: string, transform: Transform)
    ensures var p := PlanFor(source, build, filename, code, transform);
      && p.options == TargetOptions(filename, Dirname(build.dir + filename), source, build.options)
      && (p.emitted.Failure? <==>
            transform(code, p.options).Failure? || transform(code, p.options).value.sourceMap.None?)
      && (p.emitted.Success? ==>
            var t := transform(code, p.options).value;
            && StripTrailer(p.emitted.value.output, Basename(filename)) == Some(t.code)
            && p.emitted.value.sourceMap.Keys == t.sourceMap.value.Keys - {"names", "sourcesContent"}
            && forall k | k in p.emitted.value.sourceMap :: p.emitted.value.sourceMap[k] == t.sourceMap.value[k])
  {
    var p := PlanFor(source, build, filename, code, transform);
    if p.emitted.Success? {
      OutputRoundTrip(transform(code, p.options).value.code, Basename(filename));
    }
  }

  /** Each plan writes into the directory of its output file. */
  predicate WellPlaced(plans: seq<Plan>)
  {
    forall i | 0 <= i < |plans| :: plans[i].outDir == Dirname(plans[i].outFile)
  }

  /** The plans of all builds for one file, from the same source text, in
      the order of the builds: `config.builds.map(...)` runs the part of
      every task before its first `await` before any task goes on. */
  function Plans(source: Path, builds: seq<Build>, filename: seq<string>, code: string, transform: Transform): (r: seq<Plan>)
    ensures |r| == |builds| && WellPlaced(r)
  {
    seq(|builds|, i requires 0 <= i < |builds| => PlanFor(source, builds[i], filename, code, transform))
  }

  /** A plan writes into `dirname` of its output file, and the output
      directory of a file below a build directory that is below the
      working directory is below it too. */
  lemma PlanUnder(cwd: Path, source: Path, build: Build, filename: seq<string>, code: string, transform: Transform)
    requires Under(cwd, build.dir) && filename != []
    ensures var p := PlanFor(source, build, filename, code, transform);
      p.outFile == build.dir + filename && p.outDir == Dirname(p.outFile) && Under(cwd, p.outDir)
  {
    var dir := build.dir;
    assert Dirname(dir + filename) == dir + Dirname(filename);
    assert (dir + Dirname(filename))[..|cwd|] == dir[..|cwd|];
  }

  /** The task gets past `await cleaned` and calls `ensureDirExists`. */
  predicate Gated(p: Plan, cleaned: Outcome)
  {
    p.emitted.Success? && cleaned == Ready
  }

  /** The task asks for a directory the table can make: one at or below
      the working directory (elsewhere the call throws). */
  predicate Requests(cwd: Path, p: Plan, cleaned: Outcome)
  {
    Gated(p, cleaned) && Under(cwd, p.outDir)
  }

  /** The task's directory entry is ready. */
  predicate DirReady(p: Plan, entries: map<Path, Outcome>)
  {
    p.outDir in entries && entries[p.outDir] == Ready
  }

  /** The two writes of a task that passed both gates. */
  function TaskWrites(cwd: Path, p: Plan, cleaned: Outcome, entries: map<Path, Outcome>): seq<WriteOp>
  {
    if Requests(cwd, p, cleaned) && DirReady(p, entries) then
      [WriteOp(p.outFile, CodeText(p.emitted.value.output)),
       WriteOp(MapPath(p.outFile), MapJson(p.emitted.value.sourceMap))]
    else []
  }

  function AllWrites(cwd: Path, plans: seq<Plan>, cleaned: Outcome, entries: map<Path, Outcome>): seq<WriteOp>
  {
    if plans == [] then []
    else AllWrites(cwd, plans[..|plans| - 1], cleaned, entries)
         + TaskWrites(cwd, plans[|plans| - 1], cleaned, entries)
  }

  /** The task resolves: transform, cleanup, directory and both writes
      succeeded. */
  predicate TaskOk(cwd: Path, p: Plan, cleaned: Outcome, entries: map<Path, Outcome>, denied: set<Path>)
  {
    Requests(cwd, p, cleaned) && DirReady(p, entries) && p.outFile !in denied && MapPath(p.outFile) !in denied
  }

  /** The directories whose entries the tasks asked for. */
  function Requested(cwd: Path, plans: seq<Plan>, cleaned: Outcome): set<Path>
  {
    if plans == [] then {}
    else Requested(cwd, plans[..|plans| - 1], cleaned)
         + (if Requests(cwd, plans[|plans| - 1], cleaned) then Chain(cwd, plans[|plans| - 1].outDir) else {})
  }

  predicate GatedRecorded(cwd: Path, plans: seq<Plan>, cleaned: Outcome, entries: map<Path, Outcome>)
  {
    forall j | 0 <= j < |plans| :: Requests(cwd, plans[j], cleaned) ==> plans[j].outDir in entries
  }

  /** One build's task after its first `await` (src/cli.js:107-113), as an
      update of the table and the disk; the boolean is whether the task
      resolves. A task whose transform threw has already failed; a failed
      cleanup fails it before it asks for its directory; a directory
      outside `cwd` makes `ensureDirExists` throw; a failed directory
      fails it with no write; otherwise both writes are issued, and it
      succeeds exactly when both do. */
  function Task(cwd: Path, m: Memo, p: Plan, cleaned: Outcome): (r: (Memo, bool))
    requires cwd in m.entries
    ensures r.1 ==> Gated(p, cleaned)
    ensures Keeps(m.entries, r.0.entries)
    ensures r.0.disk.sources == m.disk.sources && r.0.disk.denied == m.disk.denied
  {
    if !Gated(p, cleaned) then (m, false)
    else
      var (m1, o) := Request(cwd, m, p.outDir);
      if o != Some(Ready) then (m1, false)
      else
        var d := m1.disk;
        var writes := [WriteOp(p.outFile, CodeText(p.emitted.value.output)),
                       WriteOp(MapPath(p.outFile), MapJson(p.emitted.value.sourceMap))];
        (m1.(disk := d.(writeLog := d.writeLog + writes)),
         WriteError(d, p.outFile) == None && WriteError(d, MapPath(p.outFile)) == None)
  }

  /** A file's tasks, one after another; the file succeeds when all do,
      which needs every task past the transform and the cleanup. */
  function Tasks(cwd: Path, m: Memo, plans: seq<Plan>, cleaned: Outcome): (r: (Memo, bool))
    requires cwd in m.entries
    ensures r.1 ==> forall j | 0 <= j < |plans| :: Gated(plans[j], cleaned)
    ensures Keeps(m.entries, r.0.entries)
    ensures r.0.disk.sources == m.disk.sources && r.0.disk.denied == m.disk.denied
    decreases |plans|
  {
    if plans == [] then (m, true)
    else
      var init := plans[..|plans| - 1];
      var r1 := Tasks(cwd, m, init, cleaned);
      var r2 := Task(cwd, r1.0, plans[|plans| - 1], cleaned);
      assert r1.1 && r2.1 ==> forall j | 0 <= j < |plans| :: Gated(plans[j], cleaned) by {
        if r1.1 && r2.1 {
          forall j | 0 <= j < |plans| ensures Gated(plans[j], cleaned) {
            if j < |init| { assert plans[j] == init[j]; } else { assert j == |plans| - 1; }
          }
        }
      }
      KeepsTransitive(m.entries, r1.0.entries, r2.0.entries);
      (r2.0, r1.1 && r2.1)
  }

  /** `compile(filename)`: one read of the source, then the tasks of every
      build; a missing source fails the job before any task exists. */
  function Job(cwd: Path, m: Memo, cfg: Config, cleaned: Outcome, filename: seq<string>, transform: Transform): (r: (Memo, bool))
    requires cwd in m.entries
    ensures r.1 ==> var path := cfg.source + filename;
      && path in m.disk.sources
      && forall i | 0 <= i < |cfg.builds| ::
           Gated(PlanFor(cfg.source, cfg.builds[i], filename, m.disk.sources[path], transform), cleaned)
    ensures Keeps(m.entries, r.0.entries)
    ensures r.0.disk.sources == m.disk.sources && r.0.disk.denied == m.disk.denied
  {
    var path := cfg.source + filename;
    var m1 := m.(disk := m.disk.(readLog := m.disk.readLog + [path]));
    if path !in m.disk.sources then (m1, false)
    else
      var plans := Plans(cfg.source, cfg.builds, filename, m.disk.sources[path], transform);
      assert forall i | 0 <= i < |cfg.builds| ::
        plans[i] == PlanFor(cfg.source, cfg.builds[i], filename, m.disk.sources[path], transform);
      Tasks(cwd, m1, plans, cleaned)
  }

  /** Later requests leave the writes already decided as they were. */
  lemma {:induction false} AllWritesStable(cwd: Path, plans: seq<Plan>, cleaned: Outcome,
                                          e: map<Path, Outcome>, e': map<Path, Outcome>)
    requires GatedRecorded(cwd, plans, cleaned, e) && Keeps(e, e')
    ensures AllWrites(cwd, plans, cleaned, e) == AllWrites(cwd, plans, cleaned, e')
  {
    if plans != [] {
      var init := plans[..|plans| - 1];
      assert GatedRecorded(cwd, init, cleaned, e) by {
        forall j | 0 <= j < |init| ensures Requests(cwd, init[j], cleaned) ==> init[j].outDir in e {
          assert init[j] == plans[j];
        }
      }
      AllWritesStable(cwd, init, cleaned, e, e');
    }
  }

  /** Nothing is written before the cleanup has succeeded, and every file
      written lies in a directory whose entry is ready. */
  lemma {:induction false} WritesAreGated(cwd: Path, plans: seq<Plan>, cleaned: Outcome, entries: map<Path, Outcome>)
    requires WellPlaced(plans)
    ensures cleaned != Ready ==> AllWrites(cwd, plans, cleaned, entries) == []
    ensures forall w | w in AllWrites(cwd, plans, cleaned, entries) ::
              Dirname(w.path) in entries && entries[Dirname(w.path)] == Ready
  {
    if plans != [] {
      var init := plans[..|plans| - 1];
      var last := plans[|plans| - 1];
      assert forall i | 0 <= i < |init| :: init[i] == plans[i];
      WritesAreGated(cwd, init, cleaned, entries);
      var before := AllWrites(cwd, init, cleaned, entries);
      var own := TaskWrites(cwd, last, cleaned, entries);
      assert AllWrites(cwd, plans, cleaned, entries) == before + own;
      forall w: WriteOp | w in before + own ensures Dirname(w.path) in entries && entries[Dirname(w.path)] == Ready {
        if w !in before {
          assert last.outDir == Dirname(last.outFile) == Dirname(MapPath(last.outFile));
          assert w == own[0] || w == own[1];
        }
      }
    }
  }

  lemma TaskOkStable(cwd: Path, plans: seq<Plan>, cleaned: Outcome, e: map<Path, Outcome>, e': map<Path, Outcome>,
                     denied: set<Path>)
    requires GatedRecorded(cwd, plans, cleaned, e) && Keeps(e, e')
    ensures forall j | 0 <= j < |plans| ::
              TaskOk(cwd, plans[j], cleaned, e', denied) == TaskOk(cwd, plans[j], cleaned, e, denied)
  {
  }

  /** Only the write log differs, so the table invariant carries over. */
  lemma InvIgnoresLogs(cwd: Path, m: Memo, readLog: seq<Path>, writeLog: seq<WriteOp>)
    requires MemoInv(cwd, m)
    ensures MemoInv(cwd, m.(disk := m.disk.(readLog := readLog, writeLog := writeLog)))
  {
    var m' := m.(disk := m.disk.(readLog := readLog, writeLog := writeLog));
    assert m'.entries == m.entries && m'.disk.dirs == m.disk.dirs && m'.disk.mkdirLog == m.disk.mkdirLog;
  }

  /** What one task does to the table and the disk: it keeps the
      invariant; a task that does not ask for a directory changes nothing;
      one that does adds exactly the chain down to its directory; it writes
      exactly its gated writes; and it succeeds exactly when everything it
      depends on succeeded. */
  lemma TaskFacts(cwd: Path, m: Memo, p: Plan, cleaned: Outcome)
    requires MemoInv(cwd, m) && p.outDir == Dirname(p.outFile)
    ensures var (m', ok) := Task(cwd, m, p, cleaned);
      && MemoInv(cwd, m')
      && (!Requests(cwd, p, cleaned) ==> m' == m)
      && (Requests(cwd, p, cleaned) ==>
            var e := Ensure(cwd, m, p.outDir).0;
            && m'.entries == e.entries && m'.disk.dirs == e.disk.dirs && m'.disk.mkdirLog == e.disk.mkdirLog
            && m'.entries.Keys == m.entries.Keys + Chain(cwd, p.outDir) && p.outDir in m'.entries)
      && m'.disk.readLog == m.disk.readLog
      && m'.disk.writeLog == m.disk.writeLog + TaskWrites(cwd, p, cleaned, m'.entries)
      && ok == TaskOk(cwd, p, cleaned, m'.entries, m.disk.denied)
  {
    if Requests(cwd, p, cleaned) {
      EnsureKeepsInv(cwd, m, p.outDir);
      var (m1, o) := Ensure(cwd, m, p.outDir);
      if o == Ready {
        assert p.outDir in m1.disk.dirs;
        InvIgnoresLogs(cwd, m1, m1.disk.readLog, Task(cwd, m, p, cleaned).0.disk.writeLog);
      }
    }
  }

  /** `Tasks` over one more plan, the facts of `TasksFacts` carried over. */
  lemma TasksStep(cwd: Path, plans: seq<Plan>, plan: Plan, cleaned: Outcome, denied: set<Path>,
                  e0: map<Path, Outcome>, e1: map<Path, Outcome>, e2: map<Path, Outcome>,
                  w0: seq<WriteOp>, w1: seq<WriteOp>, w2: seq<WriteOp>, ok: bool, taskOk: bool)
    requires Keeps(e0, e1) && Keeps(e1, e2)
    requires GatedRecorded(cwd, plans, cleaned, e1)
    requires e1.Keys == e0.Keys + Requested(cwd, plans, cleaned)
    requires w1 == w0 + AllWrites(cwd, plans, cleaned, e1)
    requires ok <==> forall j | 0 <= j < |plans| :: TaskOk(cwd, plans[j], cleaned, e1, denied)
    requires !Requests(cwd, plan, cleaned) ==> e2 == e1
    requires Requests(cwd, plan, cleaned) ==> e2.Keys == e1.Keys + Chain(cwd, plan.outDir) && plan.outDir in e2
    requires w2 == w1 + TaskWrites(cwd, plan, cleaned, e2)
    requires taskOk == TaskOk(cwd, plan, cleaned, e2, denied)
    ensures GatedRecorded(cwd, plans + [plan], cleaned, e2)
    ensures e2.Keys == e0.Keys + Requested(cwd, plans + [plan], cleaned)
    ensures w2 == w0 + AllWrites(cwd, plans + [plan], cleaned, e2)
    ensures (ok && taskOk) <==> forall j | 0 <= j < |plans + [plan]| :: TaskOk(cwd, (plans + [plan])[j], cleaned, e2, denied)
  {
    KeysStep(cwd, plans, plan, cleaned, e0, e1, e2);
    WritesStep(cwd, plans, plan, cleaned, e1, e2, w0, w1, w2);
    TaskOkStep(cwd, plans, plan, cleaned, e1, e2, denied, ok, taskOk);
    GatedRecordedStep(cwd, plans, plan, cleaned, e1, e2);
  }

  lemma KeysStep(cwd: Path, plans: seq<Plan>, plan: Plan, cleaned: Outcome,
                 e0: map<Path, Outcome>, e1: map<Path, Outcome>, e2: map<Path, Outcome>)
    requires e1.Keys == e0.Keys + Requested(cwd, plans, cleaned)
    requires !Requests(cwd, plan, cleaned) ==> e2 == e1
    requires Requests(cwd, plan, cleaned) ==> e2.Keys == e1.Keys + Chain(cwd, plan.outDir)
    ensures e2.Keys == e0.Keys + Requested(cwd, plans + [plan], cleaned)
  {
    var ps := plans + [plan];
    assert ps[..|ps| - 1] == plans;
  }

  lemma WritesStep(cwd: Path, plans: seq<Plan>, plan: Plan, cleaned: Outcome,
                   e1: map<Path, Outcome>, e2: map<Path, Outcome>, w0: seq<WriteOp>, w1: seq<WriteOp>, w2: seq<WriteOp>)
    requires GatedRecorded(cwd, plans, cleaned, e1) && Keeps(e1, e2)
    requires w1 == w0 + AllWrites(cwd, plans, cleaned, e1)
    requires w2 == w1 + TaskWrites(cwd, plan, cleaned, e2)
    ensures w2 == w0 + AllWrites(cwd, plans + [plan], cleaned, e2)
  {
    var ps := plans + [plan];
    assert ps[..|ps| - 1] == plans && ps[|ps| - 1] == plan;
    assert AllWrites(cwd, ps, cleaned, e2) == AllWrites(cwd, plans, cleaned, e2) + TaskWrites(cwd, plan, cleaned, e2);
    AllWritesStable(cwd, plans, cleaned, e1, e2);
  }

  lemma GatedRecordedStep(cwd: Path, plans: seq<Plan>, plan: Plan, cleaned: Outcome,
                          e1: map<Path, Outcome>, e2: map<Path, Outcome>)
    requires GatedRecorded(cwd, plans, cleaned, e1) && Keeps(e1, e2)
    requires Requests(cwd, plan, cleaned) ==> plan.outDir in e2
    ensures GatedRecorded(cwd, plans + [plan], cleaned, e2)
  {
    var ps := plans + [plan];
    forall j | 0 <= j < |ps| ensures Requests(cwd, ps[j], cleaned) ==> ps[j].outDir in e2 {
      if j < |plans| { assert ps[j] == plans[j]; }
    }
  }

  lemma TaskOkStep(cwd: Path, plans: seq<Plan>, plan: Plan, cleaned: Outcome, e1: map<Path, Outcome>,
                   e2: map<Path, Outcome>, denied: set<Path>, ok: bool, taskOk: bool)
    requires GatedRecorded(cwd, plans, cleaned, e1) && Keeps(e1, e2)
    requires ok <==> forall j | 0 <= j < |plans| :: TaskOk(cwd, plans[j], cleaned, e1, denied)
    requires taskOk == TaskOk(cwd, plan, cleaned, e2, denied)
    ensures (ok && taskOk) <==> forall j | 0 <= j < |plans + [plan]| :: TaskOk(cwd, (plans + [plan])[j], cleaned, e2, denied)
  {
    var ps := plans + [plan];
    TaskOkStable(cwd, plans, cleaned, e1, e2, denied);
    assert forall j | 0 <= j < |plans| :: ps[j] == plans[j];
    assert ps[|plans|] == plan;
  }

  /** What a file's tasks do together: the invariant is kept, the table
      gains exactly the chains of the directories asked for, the writes
      are exactly the gated writes of each task in order, reads are
      untouched, and the file succeeds exactly when every task does. */
  lemma {:induction false} TasksFacts(cwd: Path, m: Memo, plans: seq<Plan>, cleaned: Outcome)
    requires MemoInv(cwd, m) && WellPlaced(plans)
    ensures var (m', ok) := Tasks(cwd, m, plans, cleaned);
      && MemoInv(cwd, m')
      && GatedRecorded(cwd, plans, cleaned, m'.entries)
      && m'.entries.Keys == m.entries.Keys + Requested(cwd, plans, cleaned)
      && m'.disk.readLog == m.disk.readLog
      && m'.disk.writeLog == m.disk.writeLog + AllWrites(cwd, plans, cleaned, m'.entries)
      && (ok <==> forall j | 0 <= j < |plans| :: TaskOk(cwd, plans[j], cleaned, m'.entries, m.disk.denied))
    decreases |plans|
  {
    if plans != [] {
      var init := plans[..|plans| - 1];
      var plan := plans[|plans| - 1];
      assert WellPlaced(init) by {
        forall i | 0 <= i < |init| ensures init[i].outDir == Dirname(init[i].outFile) {
          assert init[i] == plans[i];
        }
      }
      TasksFacts(cwd, m, init, cleaned);
      var (m1, ok1) := Tasks(cwd, m, init, cleaned);
      TaskFacts(cwd, m1, plan, cleaned);
      var (m2, ok2) := Task(cwd, m1, plan, cleaned);
      SliceLast(plans);
      TasksStep(cwd, init, plan, cleaned, m.disk.denied, m.entries, m1.entries, m2.entries,
                m.disk.writeLog, m1.disk.writeLog, m2.disk.writeLog, ok1, ok2);
    }
  }

  /** On a disk that refuses nothing, after a successful cleanup, tasks
      whose transforms succeeded and whose directories lie below `cwd` all
      succeed, and every entry stays ready. */
  lemma {:induction false} TasksSucceed(cwd: Path, m: Memo, plans: seq<Plan>)
    requires MemoInv(cwd, m) && AllReady(m.entries) && m.disk.denied == {}
    requires forall j | 0 <= j < |plans| ::
               plans[j].emitted.Success? && plans[j].outDir == Dirname(plans[j].outFile) && Under(cwd, plans[j].outDir)
    ensures var (m', ok) := Tasks(cwd, m, plans, Ready);
      ok && MemoInv(cwd, m') && AllReady(m'.entries)
    decreases |plans|
  {
    if plans != [] {
      var init := plans[..|plans| - 1];
      var p := plans[|plans| - 1];
      assert forall j | 0 <= j < |init| :: init[j] == plans[j];
      TasksSucceed(cwd, m, init);
      var (m1, ok1) := Tasks(cwd, m, init, Ready);
      EnsureSucceeds(cwd, m1, p.outDir);
      EnsureKeepsInv(cwd, m1, p.outDir);
      var (m2, o) := Ensure(cwd, m1, p.outDir);
      assert p.outDir in m2.disk.dirs;
      InvIgnoresLogs(cwd, m2, m2.disk.readLog, Task(cwd, m1, p, Ready).0.disk.writeLog);
    }
  }

  /** What `compile(filename)` does: the source is read exactly once; a
      missing source fails the job with no `mkdir` and no write; otherwise
      the table gains the chains the tasks asked for, the writes are their
      gated writes, and the job succeeds exactly when every task does. */
  lemma JobFacts(cwd: Path, m: Memo, cfg: Config, cleaned: Outcome, filename: seq<string>, transform: Transform)
    requires MemoInv(cwd, m)
    ensures var (m', ok) := Job(cwd, m, cfg, cleaned, filename, transform);
      var path := cfg.source + filename;
      && MemoInv(cwd, m')
      && m'.disk.readLog == m.disk.readLog + [path]
      && (path !in m.disk.sources ==>
            !ok && m'.entries == m.entries && m'.disk.mkdirLog == m.disk.mkdirLog
            && m'.disk.writeLog == m.disk.writeLog)
      && (path in m.disk.sources ==>
            var plans := Plans(cfg.source, cfg.builds, filename, m.disk.sources[path], transform);
            && m'.entries.Keys == m.entries.Keys + Requested(cwd, plans, cleaned)
            && m'.disk.writeLog == m.disk.writeLog + AllWrites(cwd, plans, cleaned, m'.entries)
            && (ok <==> forall j | 0 <= j < |plans| :: TaskOk(cwd, plans[j], cleaned, m'.entries, m.disk.denied)))
  {
    var path := cfg.source + filename;
    var m1 := m.(disk := m.disk.(readLog := m.disk.readLog + [path]));
    InvIgnoresLogs(cwd, m, m1.disk.readLog, m.disk.writeLog);
    if path in m.disk.sources {
      TasksFacts(cwd, m1, Plans(cfg.source, cfg.builds, filename, m.disk.sources[path], transform), cleaned);
    }
  }

  /** The two writes of src/cli.js:110-113; both are issued, and the task
      fails if either does. */
  method WriteArtifacts(fs: FileSystem, outFile: Path, output: string, strippedMap: Fields) returns (ok: bool)
    modifies fs
    ensures ok == (WriteError(old(fs.State()), outFile) == None && WriteError(old(fs.State()), MapPath(outFile)) == None)
    ensures fs.State() == old(fs.State()).(writeLog := old(fs.writeLog) +
              [WriteOp(outFile, CodeText(output)), WriteOp(MapPath(outFile), MapJson(strippedMap))])
  {
    var e1 := fs.WriteFile(outFile, CodeText(output));
    var e2 := fs.WriteFile(MapPath(outFile), MapJson(strippedMap));
    ok := e1 == None && e2 == None;
  }

  /** The rest of one build's task, from `await cleaned` on
      (src/cli.js:107-113). */
  method FinishTask(creator: DirectoryCreator, plan: Plan, cleaned: Outcome) returns (ok: bool)
    requires creator.Valid()
    modifies creator, creator.fs
    ensures creator.Valid()
    ensures (creator.Table(), ok) == Task(creator.cwd, old(creator.Table()), plan, cleaned)
  {
    ok := false;
    if Gated(plan, cleaned) {
      var o := creator.RequestDir(plan.outDir);
      if o == Some(Ready) {
        ghost var m1 := creator.Table();
        ok := WriteArtifacts(creator.fs, plan.outFile, plan.emitted.value.output, plan.emitted.value.sourceMap);
        InvIgnoresLogs(creator.cwd, m1, m1.disk.readLog, creator.fs.writeLog);
      }
    }
  }

  lemma SliceLast<T>(s: seq<T>)
    requires s != []
    ensures s == s[..|s| - 1] + [s[|s| - 1]]
  {
  }

  lemma SliceStep<T>(s: seq<T>, i: nat)
    requires i < |s|
    ensures s[..i + 1] == s[..i] + [s[i]]
  {
  }

  /** The tasks of one file, in order, from `await cleaned` on. */
  method FinishAll(creator: DirectoryCreator, plans: seq<Plan>, cleaned: Outcome) returns (ok: bool)
    requires creator.Valid()
    modifies creator, creator.fs
    ensures creator.Valid()
    ensures (creator.Table(), ok) == Tasks(creator.cwd, old(creator.Table()), plans, cleaned)
  {
    ghost var m0 := creator.Table();
    ghost var done: seq<Plan> := [];
    ok := true;
    for i := 0 to |plans|
      invariant done == plans[..i]
      invariant creator.Valid()
      invariant (creator.Table(), ok) == Tasks(creator.cwd, m0, done, cleaned)
    {
      var taskOk := FinishTask(creator, plans[i], cleaned);
      SliceStep(plans, i);
      assert (done + [plans[i]])[..|done|] == done;
      done := done + [plans[i]];
      ok := ok && taskOk;
    }
    assert done == plans;
  }

  /** `compile(filename)` for every build of `cfg`: `Promise.all` over
      `config.builds.map(...)` runs each build's task up to its first
      `await` (options, transform, output and map) before any of them
      goes on. */
  method CompileFile(creator: DirectoryCreator, cfg: Config, cleaned: Outcome, filename: seq<string>, transform: Transform)
    returns (ok: bool, plans: seq<Plan>)
    requires creator.Valid()
    modifies creator, creator.fs
    ensures creator.Valid()
    ensures (creator.Table(), ok) == Job(creator.cwd, old(creator.Table()), cfg, cleaned, filename, transform)
    ensures var path := cfg.source + filename;
      plans == if path in creator.fs.sources
               then Plans(cfg.source, cfg.builds, filename, creator.fs.sources[path], transform)
               else []
  {
    ghost var m0 := creator.Table();
    var text := creator.fs.ReadFile(cfg.source + filename);
    InvIgnoresLogs(creator.cwd, m0, creator.fs.readLog, creator.fs.writeLog);
    plans := [];
    if text.None? {
      ok := false;
      return;
    }
    plans := Plans(cfg.source, cfg.builds, filename, text.value, transform);
    ok := FinishAll(creator, plans, cleaned);
  }
}
