# multiform-build: a verified model of the build script

`multiform-build` compiles a tree of JavaScript sources once for each of
several *builds*. A build is an output directory plus a set of Babel
options. The script `src/cli.js` does the following:

- It reads `multiform.json` and fills in defaults. The source root
  defaults to `src`. Build `i` gets the output directory `dist-i`. Each
  build's options are merged with the shared `defaults`, and arrays are
  concatenated.
- It starts deleting every output directory. The promise `cleaned`
  resolves once every deletion has succeeded, and rejects as soon as one
  fails.
- It globs the source root. For every matched file it reads the text
  once. Then, for each build, it:
  - assembles the transform options;
  - runs Babel;
  - appends a `sourceMappingURL` trailer;
  - strips `names` and `sourcesContent` from the source map (a build whose
    options turn source maps off gets no map, and the task fails there);
  - waits for `cleaned`;
  - makes sure the output directory exists;
  - writes the code and the map.
- Output directories are created by `ensureDirExists`. This is a memoised
  `mkdir -p`. It is pre-seeded with the working directory and creates each
  parent before its child. A directory that already exists (`EEXIST`)
  counts as success. Any other error is cached, and the attempt is never
  repeated. For a directory outside the working directory the recursion
  climbs to the filesystem root, which is its own parent, until the stack
  overflows; the call throws before anything is cached.
- When the glob ends, `finished` is set once every job pushed so far has
  succeeded. At `beforeExit`, an unfinished run exits with status 1.

The model has one module per part of the script:

| module | file | what it holds |
|---|---|---|
| `Wrappers` | wrappers.dfy | `Option`, `Result` |
| `Paths` | paths.dfy | paths as segment sequences: `dirname`, `basename`, `resolve`, `relative`, ancestry |
| `Decimal` | decimal.dfy | decimal rendering of build indices, with its parse-back |
| `Json` | json.dfy | JSON values, used for options and source maps |
| `FileSystem` | filesystem.dfy | an abstract disk and a `FileSystem` class that records every `mkdir`, read and write |
| `DirCreator` | dircreator.dfy | `ensureDirExists`: the pure `Ensure` update of the memo table, and the class `DirectoryCreator`, proved against it |
| `Config` | config.dfy | configuration normalisation and the options merge |
| `Compile` | compile.dfy | `compile(filename)`: per-build plans, the gates before writing, the writes; `Task`, `Tasks` and `Job` give their effect on the table and the disk as functions |
| `Coordinator` | coordinator.dfy | the `jobs` / `finished` / `beforeExit` logic as an event fold, and the class `Completion` that updates it in place |
| `Cli` | cli.dfy | the whole run: load, clean, compile every match, exit status; `RunResults` gives every job's success as a function of the inputs |

Mutable state is modelled as classes:
- the memo table is `DirectoryCreator.entries`;
- the filesystem is `FileSystem`;
- `jobs` and `finished` live in `Completion`.

The per-build normalisation loop is a method over an `array`. Everything
that only computes a value is a function.

## Model

| member | source | states |
|---|---|---|
| DirCreator.MkdirOutcome | src/cli.js:61-63 | a `mkdir` result settles an entry as ready exactly when it succeeded or failed with `EEXIST`; any other error is kept as the entry's failure |
| DirCreator.Ensure | src/cli.js:58-67 | a request leaves the requested path recorded with the returned outcome. Existing entries are kept. New entries and new `mkdir` attempts lie on the chain from `cwd` to the path, and a new attempt is never for a path already recorded. A cached path returns its entry and changes nothing |
| DirCreator.EnsureKeepsInv | src/cli.js:55-67 | the table invariant holds after every request: `cwd` is ready; every entry's parent is recorded; no entry is ready before its parent; ready means the directory exists; attempts are made exactly for recorded paths with a ready parent, at most once each and parent first. Afterward every directory from `cwd` to the path has an entry |
| DirCreator.InitialInv | src/cli.js:55-56 | the pre-seeded table (`cwd` ready, nothing attempted) satisfies the invariant |
| DirCreator.AtMostOneAttempt | src/cli.js:56-64 | over any sequence of requests from the pre-seeded table, `cwd` is never attempted, no path is attempted twice, and every attempt comes after its parent's, unless the parent is `cwd` |
| DirCreator.RepeatedRequest | src/cli.js:59-66 | a request for a recorded path, after any other requests, returns the first outcome and changes nothing; a cached failure is never retried |
| DirCreator.NewPath | src/cli.js:59-64 | for a new path: all its ancestors get entries and the parent's outcome is recorded. A failed parent fails the child with no attempt. A ready parent is followed by exactly one attempt. The child is ready if the directory existed (`EEXIST`), fails with the error if `mkdir` is refused, and is otherwise created |
| DirCreator.EnsureAllKeepsInv | src/cli.js:55-67 | any sequence of requests keeps the invariant |
| DirCreator.Request | src/cli.js:58-67 | a request for any path keeps every existing entry as it was, and changes the disk only by `mkdir` |
| DirCreator.ClimbNeverCached | src/cli.js:58-60 | from a path outside the working directory, every directory reached by repeated `dirname` is outside it too and has no entry, so the recursion never stops at a cached entry |
| DirCreator.EnsureSucceeds | src/cli.js:58-64 | on a disk that refuses nothing, with every entry ready, a request below `cwd` ends ready and leaves every entry ready |
| DirCreator.DirectoryCreator.EnsureDirExists | src/cli.js:58-67 | the in-place update of the table and filesystem equals `Ensure`, keeps the invariant, and adds exactly the chain from `cwd` to `dir` to the table |
| DirCreator.DirectoryCreator.RequestDir | src/cli.js:58-67 | the in-place update equals `Request`: below `cwd` it is `EnsureDirExists`; outside it the call fails and nothing changes; the invariant is kept |
| DirCreator.DirectoryCreator.constructor | src/cli.js:55-56 | the table starts with `cwd` ready, over a filesystem where `cwd` exists and nothing was attempted |
| FileSystem.FileSystem.Mkdir | src/cli.js:61 | `mkdir` is recorded once per call. It fails with `EEXIST` exactly when the directory exists, and it creates the directory only when it does not fail |
| FileSystem.FileSystem.ReadFile | src/cli.js:76 | a read is recorded; it returns the file's text, or fails when there is no such source file; nothing else changes |
| FileSystem.FileSystem.WriteFile | src/cli.js:111-112 | a write is recorded whether or not it succeeds, and it fails exactly when the parent directory is missing or the path refuses writes |
| Config.MergeFields | src/cli.js:40-42 | the merged keys are the union of both sides. A key only the build has is kept. A key only the defaults have is taken over. A build array gets the default's value concatenated after its own elements |
| Config.ArrayMerge | src/cli.js:40-42 | a merged array starts with the build's elements and continues with the default's elements, or with the default value itself when that is not an array |
| Config.MergeNothing | src/cli.js:40-42 | merging with empty defaults leaves the options unchanged |
| Config.NormaliseSource | src/cli.js:28-32 | the source root is `cwd/src` when absent and otherwise the configured path resolved against `cwd` |
| Config.NormaliseBuilds | src/cli.js:34-45 | every build, updated in place, gets its directory (default `dist-i`) resolved, and its options (default `{}`) merged with the defaults |
| Config.BuildOf | src/cli.js:34-45 | build `i`'s directory is its `dir`, or `dist-i`, resolved against `cwd`; its options are its own (or `{}`) merged with the defaults |
| Config.Load | src/cli.js:28-45 | the loaded configuration is `Loaded`: the normalised source root and exactly one normalised build per configured build, in order |
| Config.DefaultDirsDistinct | src/cli.js:35-37 | two builds without `dir` get different output directories |
| Config.RelativeBuildsStayUnder | src/cli.js:44 | a relative (or defaulted) build directory resolves to a path below the working directory |
| Config.DestDirs | src/cli.js:49 | the deletion targets are exactly the builds' (already absolute) directories, in order |
| Decimal.ParseDecimalText | src/cli.js:36 | the decimal text of a build index parses back to that index |
| Decimal.DecimalTextInjective | src/cli.js:36 | different indices have different decimal texts |
| Compile.Barrier | src/cli.js:50 | `cleaned` succeeds exactly when every deletion succeeded; when it fails, its error is one of the deletions' errors |
| Compile.TargetOptions | src/cli.js:83-89 | the options have the five base keys plus the build's keys. Each build key overrides. Each base key the build does not set has its fixed value: `ast` false, `sourceMap` true, the basename, the file name, and `sourceRoot` relative from the output directory to the source root |
| Compile.OutputRoundTrip | src/cli.js:101 | the written code is the transformed code followed by exactly the trailer naming `<basename>.map`, and the trailer can be stripped back off |
| Compile.StripMap | src/cli.js:103-104 | the written map has exactly the transform's keys minus `names` and `sourcesContent`, with unchanged values |
| Compile.PlanEmits | src/cli.js:78-104 | a build's plan uses the `TargetOptions` for its output directory. The transform runs once on the file's text with those options. A throw fails the plan, and so does a result without a map. Otherwise the code to write strips back to the transformed code, and the map to write is the stripped map |
| Compile.Plans | src/cli.js:78-80 | one plan per build, in order, each writing into the directory of its output file |
| Compile.PlanUnder | src/cli.js:79-80 | a plan writes into `dirname` of its output file, and that directory stays below the working directory |
| Compile.WritesAreGated | src/cli.js:107-113 | nothing is written unless `cleaned` succeeded, and every written file lies in a directory whose entry is ready |
| Compile.AllWritesStable | src/cli.js:108-113 | later directory requests do not change the writes already decided for earlier tasks |
| Compile.WriteArtifacts | src/cli.js:110-113 | both writes are issued, code then map at `<file>.map`, and the task succeeds exactly when neither write fails; nothing else on the disk changes |
| Compile.Task | src/cli.js:107-113 | a task succeeds only when its transform succeeded and the cleanup succeeded |
| Compile.Tasks | src/cli.js:78-114 | a file's tasks succeed only when every one of them got past the transform and the cleanup |
| Compile.Job | src/cli.js:72-115 | a job succeeds only when its source exists and every build's plan got past the transform and the cleanup; sources, refused paths and existing entries are untouched |
| Compile.TaskFacts | src/cli.js:107-113 | one task keeps the table invariant. A task that does not ask for a directory (transform failed, cleanup failed, or directory outside `cwd`) changes nothing. One that asks leaves exactly the entries, directories and `mkdir` log of `Ensure` for its directory, which add its chain. It writes exactly when its entry is ready, and succeeds exactly when, in addition, neither path refuses the write |
| Compile.TasksFacts | src/cli.js:78-114 | a file's tasks keep the invariant, add exactly the chains of the directories asked for, write exactly each task's gated writes in order, read nothing, and succeed exactly when every task does |
| Compile.TasksSucceed | src/cli.js:107-113 | on a disk that refuses nothing, after a successful cleanup, tasks whose transforms succeeded and whose directories lie below `cwd` all succeed and leave every entry ready |
| Compile.JobFacts | src/cli.js:72-115 | the source is read exactly once. A missing source fails the job with no `mkdir` and no write. Otherwise the table gains exactly the chains the tasks asked for, the writes are their gated writes, and the job succeeds exactly when every task does |
| Compile.FinishTask | src/cli.js:107-113 | the in-place task equals `Task` and keeps the table invariant |
| Compile.FinishAll | src/cli.js:78-114 | the in-place tasks of a file, in order, equal `Tasks` and keep the invariant |
| Compile.CompileFile | src/cli.js:72-115 | the in-place job equals `Job` and keeps the invariant; its plans are the `Plans` of the file's text when the source exists, and none otherwise |
| Coordinator.ExitCode | src/cli.js:16-20 | the exit status is 0 or 1, and 0 exactly when the run finished |
| Coordinator.StepKeepsInv | src/cli.js:15-21 | every event keeps the meaning of `finished`: `end` has happened and every job handed to `Promise.all` has succeeded |
| Coordinator.RunKeepsInv | src/cli.js:15-21 | the invariant holds after any sequence of events |
| Coordinator.RunCounts | src/cli.js:126-134 | each `match` pushes exactly one job; `Promise.all` is given exactly the jobs pushed before the first `end`; later `end`s change nothing |
| Coordinator.FinishedIff | src/cli.js:132-134 | from the start, `finished` holds exactly when `end` was seen and every job pushed before it succeeded |
| Coordinator.NoMatchFinishes | src/cli.js:132-134 | when nothing matches, the run finishes at `end`, and only then |
| Coordinator.NoMatchCount | src/cli.js:126-128 | a run with no `match` pushes no job |
| Coordinator.FailureIsFinal | src/cli.js:16-20 | a failed job that `Promise.all` is (or will be) given keeps the run unfinished whatever follows, so the exit status is 1 |
| Coordinator.FinishedIsFinal | src/cli.js:134 | once finished, a run stays finished |
| Coordinator.MatchesRun | src/cli.js:126-128 | `n` matches push `n` pending jobs |
| Coordinator.RunAppend | src/cli.js:119-136 | running two event sequences one after the other is running their concatenation |
| Coordinator.SuccessesRun | src/cli.js:133-134 | after `end`, completing every remaining job successfully finishes the run |
| Coordinator.SuccessfulRun | src/cli.js:126-136 | `n` matches, then `end`, then every job succeeding, finishes the run with exit status 0 |
| Coordinator.Completion.OnMatch | src/cli.js:126-128 | pushing a job is a `Match` step, and the returned index names the new pending job |
| Coordinator.Completion.OnSettle | src/cli.js:133-134 | a job settling updates the state as the corresponding event step |
| Coordinator.Completion.OnEnd | src/cli.js:132-134 | the glob's end updates the state as the `End` step |
| Coordinator.Completion.BeforeExit | src/cli.js:16-20 | the status is 1 exactly when the run has not finished, and 0 exactly when it has |
| Cli.MatchThenSettle | src/cli.js:126-128 | a job pushed and settled before `end` adds its status to the job list |
| Cli.EndAfterJobs | src/cli.js:132-134 | at `end`, after settled jobs, the run finishes exactly when every job succeeded |
| Cli.Jobs | src/cli.js:126-128 | one result per match, with sources, refused paths and existing entries untouched |
| Cli.JobsInv | src/cli.js:126-128 | the jobs of a run keep the table invariant |
| Cli.JobsIndex | src/cli.js:126-128 | the `k`-th job runs on the table and disk the jobs before it left, which satisfy the invariant |
| Cli.MissingSourceFails | src/cli.js:76 | a job whose source file does not exist fails |
| Cli.TransformFailureFails | src/cli.js:91-104 | a job fails when the transform throws, or returns no map, for any one build |
| Cli.PoisonedCleanupFails | src/cli.js:108 | a failed cleanup fails every job when there is at least one build |
| Cli.JobSucceeds | src/cli.js:72-115 | with its source present, a transform that never throws and always returns a map, every output directory below `cwd`, a successful cleanup and a disk that refuses nothing, a job succeeds and leaves every entry ready |
| Cli.JobsSucceed | src/cli.js:126-128 | under the same conditions every job of a run succeeds |
| Cli.RunFailsOnMissingSource | src/cli.js:76 | in a whole run, the job of a match without a source file fails |
| Cli.RunFailsOnTransform | src/cli.js:91-104 | in a whole run, the job of a match fails when the transform fails for one of its builds |
| Cli.RunFailsOnCleanup | src/cli.js:108 | in a whole run with at least one build, a failed cleanup fails every job |
| Cli.RunSucceeds | src/cli.js:25-136 | in a whole run where every deletion succeeded, nothing is refused, the transform never fails, every output directory lies below `cwd` and every match has a source, every job succeeds |
| Cli.HandleMatch | src/cli.js:126-128 | a match pushes a job and runs it to settlement. The table and disk afterwards, and the job's success, are those of `Job`. The table invariant is kept. A failed cleanup fails the job whenever there is at least one build |
| Cli.BuildAll | src/cli.js:25-136 | the whole run: each job's success is `RunResults` of the inputs, one per match; exit status 0 exactly when every job succeeded; 1 exactly when some job failed; and 1 whenever the cleanup failed, there is a build and something matched |

## Left out

- Real filesystem, glob and Babel. The disk is an abstract `Disk`. The
  glob's matches are an input sequence. The transform is a function
  parameter, and a `Failure` stands for the exception it throws.
- `del`: each deletion is an input outcome, not a filesystem operation.
- The `require` of `multiform.json`: the raw configuration is an input. A
  malformed or missing configuration, which throws before any work, is not
  modelled.
- `glob.on('err', …)`, which rethrows, and an unhandled rejection that
  crashes the process. The exit status assumes the process reaches
  `beforeExit`.
- Console output, the `console.error` context of a failed transform, and
  the byte format of `JSON.stringify(map, null, 2)`. The written map is
  kept as its object.
- Timing and interleaving. Jobs run one at a time, each to completion
  before the next match. Within a file, every build's synchronous part
  (options, transform, output) runs first, as `Promise.all` over
  `builds.map(async …)` does. The parts after `await cleaned` then run
  build by build, in order. Other interleavings of the directory requests
  are not covered.
- `.` and `..` segments inside configured paths, and any other `path`
  normalisation beyond `dirname`, `basename`, `join`, `resolve` and
  `relative` on segment lists.
- Config.MergeValue: only the array-concatenating customizer is visible in
  the script. The rest is the assumed behaviour of lodash 3's `merge`:
  objects merge key by key, and any other value is overwritten by the
  defaults' value.
- DirCreator.Ensure and DirCreator.DirectoryCreator.EnsureDirExists
  require the directory to be the working directory or below it. A path
  outside it is handled by `Request` and `RequestDir`: the script's
  recursion climbs to the filesystem root, which is its own parent, until
  the stack overflows, so the call throws and nothing is recorded. The
  stack depth itself is not modelled.
- `mkdir` failing with `EEXIST` because a regular file, not a directory,
  has that name. The disk holds only directories and source files, so
  `EEXIST` always means the directory exists. In the script such an entry
  counts as ready, and the writes below it then fail.
- Cli.BuildAll requires one deletion outcome per build. Its `dirs` is the
  disk as it is after the cleanup: a destination directory whose deletion
  succeeded is gone only when `dirs` leaves it out; the model does not
  remove it.
- Failure handling in `finished`: a failed run never sets `finished` in the
  script. The model follows the code. A design in which `finished` is also
  set once a failure has been acknowledged is not what the script does.
