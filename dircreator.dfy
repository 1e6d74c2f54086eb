/** `ensureDirExists` (src/cli.js:54-68): a memo table from absolute
    directory path to the single outcome of making that directory and all
    its ancestors exist, pre-seeded with the working directory. A new path
    first ensures its parent, then (only if the parent is ready) attempts
    `mkdir` once; `EEXIST` counts as success, any other error poisons the
    entry for good.

    The table entry is written synchronously when the request is made, so
    the bookkeeping is a sequential update: `Ensure` is that update as a
    function, and the class `DirectoryCreator` performs it in place. */
module DirCreator {
  import opened Wrappers
  import opened Paths
  import opened FileSystem

  /** The settled value of a directory entry. */
  datatype Outcome = Ready | Poisoned(code: ErrorCode)

  /** How a `mkdir` result settles an entry: `EEXIST` is swallowed. */
  function MkdirOutcome(err: Option<ErrorCode>): (o: Outcome)
    ensures o == Ready <==> (err == None || err == Some(EEXIST))
    ensures o.Poisoned? ==> err == Some(o.code) && o.code != EEXIST
  {
    match err
    case None => Ready
    case Some(EEXIST) => Ready
    case Some(c) => Poisoned(c)
  }

  /** The memo table together with the filesystem it acts on. */
  datatype Memo = Memo(entries: map<Path, Outcome>, disk: Disk)

  /** The table right after start-up: only the working directory, ready. */
  function SeededTable(cwd: Path, disk: Disk): Memo
  {
    Memo(map[cwd := Ready], disk)
  }

  /** `e'` keeps every entry of `e` with the same outcome. */
  predicate Keeps(e: map<Path, Outcome>, e': map<Path, Outcome>)
  {
    forall p | p in e :: p in e' && e'[p] == e[p]
  }

  lemma KeepsTransitive(e: map<Path, Outcome>, e': map<Path, Outcome>, e'': map<Path, Outcome>)
    requires Keeps(e, e') && Keeps(e', e'')
    ensures Keeps(e, e'')
  {
  }

  /** Only `mkdir` touched the disk: directories were added and attempts
      appended to the log; nothing else changed. */
  predicate MkdirOnly(d: Disk, d': Disk)
  {
    d.dirs <= d'.dirs && d.mkdirLog <= d'.mkdirLog
    && d' == d.(dirs := d'.dirs, mkdirLog := d'.mkdirLog)
  }

  /** The entry for a new `dir` whose parent already has one: the parent's
      failure is inherited without an attempt; a ready parent is followed by
      exactly one `mkdir(dir)`. */
  function Extend(m: Memo, dir: Path): (r: (Memo, Outcome))
    requires Dirname(dir) in m.entries
  {
    var parent := m.entries[Dirname(dir)];
    if parent == Ready then
      var (d, err) := DiskMkdir(m.disk, dir);
      var o := MkdirOutcome(err);
      (Memo(m.entries[dir := o], d), o)
    else
      (Memo(m.entries[dir := parent], m.disk), parent)
  }

  /** `ensureDirExists(dir)` as one sequential update of the table, for
      `dir` at or below `cwd`, where the recursion stops at the latest at
      the pre-seeded `cwd`. Paths outside `cwd` are handled by `Request`. */
  function Ensure(cwd: Path, m: Memo, dir: Path): (r: (Memo, Outcome))
    requires cwd in m.entries && Under(cwd, dir)
    ensures dir in r.0.entries && r.0.entries[dir] == r.1
    ensures Keeps(m.entries, r.0.entries)
    ensures r.0.entries.Keys <= m.entries.Keys + Chain(cwd, dir)
    ensures MkdirOnly(m.disk, r.0.disk)
    ensures r.0.disk.dirs <= m.disk.dirs + Chain(cwd, dir)
    ensures forall i | |m.disk.mkdirLog| <= i < |r.0.disk.mkdirLog| ::
              r.0.disk.mkdirLog[i] in Chain(cwd, dir) && r.0.disk.mkdirLog[i] !in m.entries
    ensures dir in m.entries ==> r == (m, m.entries[dir])
    decreases |dir|
  {
    if dir in m.entries then (m, m.entries[dir])
    else
      ParentStaysUnder(cwd, dir);
      ChainStep(cwd, dir);
      var (m1, _) := Ensure(cwd, m, Dirname(dir));
      Extend(m1, dir)
  }

  /** Any number of requests, one after another. */
  function EnsureAll(cwd: Path, m: Memo, dirs: seq<Path>): (r: Memo)
    requires cwd in m.entries && forall i | 0 <= i < |dirs| :: Under(cwd, dirs[i])
    ensures Keeps(m.entries, r.entries)
    ensures forall i | 0 <= i < |dirs| :: dirs[i] in r.entries
    decreases |dirs|
  {
    if dirs == [] then m
    else
      var m1 := Ensure(cwd, m, dirs[0]).0;
      var r := EnsureAll(cwd, m1, dirs[1..]);
      assert forall i | 1 <= i < |dirs| :: dirs[i] == dirs[1..][i - 1];
      r
  }

  /** `ensureDirExists(dir)` for any path. At or below `cwd` it is
      `Ensure`. Outside `cwd` the recursion never meets a recorded entry
      (`ClimbNeverCached`), and since the root is its own parent it never
      stops: the call stack overflows, and the call throws (`None`) before
      anything is recorded. */
  function Request(cwd: Path, m: Memo, dir: Path): (r: (Memo, Option<Outcome>))
    requires cwd in m.entries
    ensures Keeps(m.entries, r.0.entries) && MkdirOnly(m.disk, r.0.disk)
  {
    if Under(cwd, dir) then
      var (m1, o) := Ensure(cwd, m, dir);
      (m1, Some(o))
    else (m, None)
  }

  /** The `k`-th directory above `p`, following `path.dirname`. */
  function Climb(p: Path, k: nat): Path
  {
    if k == 0 then p else Climb(Dirname(p), k - 1)
  }

  /** Every entry already made is ready. */
  predicate AllReady(e: map<Path, Outcome>)
  {
    forall p | p in e :: e[p] == Ready
  }

  /** The table's invariant. */
  ghost predicate MemoInv(cwd: Path, m: Memo)
  {
    && TableShape(cwd, m.entries)
    && ReadyExists(m.entries, m.disk.dirs)
    && AttemptsMatch(cwd, m.entries, m.disk.mkdirLog)
    && AttemptOrder(cwd, m.disk.mkdirLog)
  }

  ghost predicate TableShape(cwd: Path, e: map<Path, Outcome>)
  {
    // the working directory is pre-seeded as done
    && cwd in e && e[cwd] == Ready
    // every entry lies at or below the working directory ...
    && (forall p | p in e :: Under(cwd, p))
    // ... and its parent has an entry too
    && (forall p {:trigger Dirname(p)} | p in e && p != cwd :: Dirname(p) in e)
    // no directory is ready before its parent is
    && (forall p {:trigger Dirname(p)} | p in e && p != cwd && e[p] == Ready :: e[Dirname(p)] == Ready)
    // a failed parent passes its failure on unchanged
    && (forall p {:trigger Dirname(p)} | p in e && p != cwd && e[Dirname(p)].Poisoned? :: e[p] == e[Dirname(p)])
  }

  /** What is reported ready exists. */
  ghost predicate ReadyExists(e: map<Path, Outcome>, dirs: set<Path>)
  {
    forall p | p in e && e[p] == Ready :: p in dirs
  }

  /** `mkdir(p)` was attempted exactly for the recorded paths other than
      `cwd` whose parent is ready. */
  ghost predicate AttemptsMatch(cwd: Path, e: map<Path, Outcome>, log: seq<Path>)
    requires TableShape(cwd, e)
  {
    && (forall p {:trigger Dirname(p)} | p in e && p != cwd :: (p in log <==> e[Dirname(p)] == Ready))
    && (forall i | 0 <= i < |log| :: log[i] in e && log[i] != cwd)
  }

  /** At most one attempt per path, and a parent's attempt comes before
      its child's. */
  ghost predicate AttemptOrder(cwd: Path, log: seq<Path>)
  {
    && (forall i, j | 0 <= i < j < |log| :: log[i] != log[j])
    && (forall i {:trigger Dirname(log[i])} | 0 <= i < |log| :: Dirname(log[i]) == cwd || Dirname(log[i]) in log[..i])
  }

  lemma InitialInv(cwd: Path, disk: Disk)
    requires cwd in disk.dirs && disk.mkdirLog == []
    ensures MemoInv(cwd, SeededTable(cwd, disk))
  {
  }

  /** Above a path outside `cwd`, at any depth, there is no recorded
      entry, so the recursion of `ensureDirExists` finds nothing to stop
      at. */
  lemma {:induction false} ClimbNeverCached(cwd: Path, e: map<Path, Outcome>, dir: Path, k: nat)
    requires TableShape(cwd, e) && !Under(cwd, dir)
    ensures !Under(cwd, Climb(dir, k)) && Climb(dir, k) !in e
    decreases k
  {
    if k > 0 {
      if Under(cwd, Dirname(dir)) {
        UnderParent(cwd, dir);
      }
      ClimbNeverCached(cwd, e, Dirname(dir), k - 1);
    }
  }

  lemma ExtendKeepsInv(cwd: Path, m: Memo, dir: Path)
    requires MemoInv(cwd, m)
    requires Under(cwd, dir) && dir != cwd && dir !in m.entries && Dirname(dir) in m.entries
    ensures MemoInv(cwd, Extend(m, dir).0)
  {
    var (m', o) := Extend(m, dir);
    ExtendShape(cwd, m.entries, dir, o);
    var parent := Dirname(dir);
    if m.entries[parent] == Ready {
      assert parent in m.disk.dirs;
      ExtendAttempts(cwd, m.entries, m.disk.mkdirLog, dir, o);
    } else {
      assert m'.disk.mkdirLog == m.disk.mkdirLog;
      ExtendNoAttempt(cwd, m.entries, m.disk.mkdirLog, dir);
    }
  }

  lemma ExtendShape(cwd: Path, e: map<Path, Outcome>, dir: Path, o: Outcome)
    requires TableShape(cwd, e)
    requires Under(cwd, dir) && dir != cwd && dir !in e && Dirname(dir) in e
    requires o == Ready ==> e[Dirname(dir)] == Ready
    requires e[Dirname(dir)].Poisoned? ==> o == e[Dirname(dir)]
    ensures TableShape(cwd, e[dir := o])
  {
    var e' := e[dir := o];
    forall p | p in e' && p != cwd
      ensures Dirname(p) in e'
      ensures e'[p] == Ready ==> e'[Dirname(p)] == Ready
      ensures e'[Dirname(p)].Poisoned? ==> e'[p] == e'[Dirname(p)]
    {
      if p != dir {
        assert p in e && Dirname(p) in e;
        assert Dirname(p) != dir;
        assert e'[Dirname(p)] == e[Dirname(p)] && e'[p] == e[p];
      } else {
        assert e'[Dirname(p)] == e[Dirname(p)] && e'[p] == o;
      }
    }
  }

  lemma ExtendAttempts(cwd: Path, e: map<Path, Outcome>, log: seq<Path>, dir: Path, o: Outcome)
    requires TableShape(cwd, e) && AttemptsMatch(cwd, e, log) && AttemptOrder(cwd, log)
    requires Under(cwd, dir) && dir != cwd && dir !in e && Dirname(dir) in e
    requires e[Dirname(dir)] == Ready
    requires TableShape(cwd, e[dir := o])
    ensures AttemptsMatch(cwd, e[dir := o], log + [dir])
    ensures AttemptOrder(cwd, log + [dir])
  {
    ExtendMatch(cwd, e, log, dir, o);
    ExtendOrder(cwd, e, log, dir);
  }

  lemma ExtendMatch(cwd: Path, e: map<Path, Outcome>, log: seq<Path>, dir: Path, o: Outcome)
    requires TableShape(cwd, e) && AttemptsMatch(cwd, e, log)
    requires dir != cwd && dir !in e && Dirname(dir) in e && e[Dirname(dir)] == Ready
    requires TableShape(cwd, e[dir := o])
    ensures AttemptsMatch(cwd, e[dir := o], log + [dir])
  {
    var e' := e[dir := o];
    var log' := log + [dir];
    forall p | p in e' && p != cwd ensures p in log' <==> e'[Dirname(p)] == Ready {
      if p == dir {
        assert e'[Dirname(p)] == e[Dirname(dir)];
      } else {
        assert p in e && Dirname(p) in e && Dirname(p) != dir;
        assert p in log' <==> p in log;
      }
    }
    forall i | 0 <= i < |log'| ensures log'[i] in e' && log'[i] != cwd {
      if i < |log| { assert log'[i] == log[i]; }
    }
  }

  lemma ExtendOrder(cwd: Path, e: map<Path, Outcome>, log: seq<Path>, dir: Path)
    requires TableShape(cwd, e) && AttemptsMatch(cwd, e, log) && AttemptOrder(cwd, log)
    requires dir != cwd && dir !in e && Dirname(dir) in e && e[Dirname(dir)] == Ready
    ensures AttemptOrder(cwd, log + [dir])
  {
    assert dir !in log;
    AppendDistinct(log, dir);
    if Dirname(dir) != cwd {
      assert e[Dirname(Dirname(dir))] == Ready;
    }
    AppendParentFirst(cwd, log, dir);
  }

  lemma AppendDistinct(log: seq<Path>, dir: Path)
    requires forall i, j | 0 <= i < j < |log| :: log[i] != log[j]
    requires dir !in log
    ensures forall i, j | 0 <= i < j < |log + [dir]| :: (log + [dir])[i] != (log + [dir])[j]
  {
    var log' := log + [dir];
    forall i, j | 0 <= i < j < |log'| ensures log'[i] != log'[j] {
      assert log'[i] == log[i];
      if j < |log| { assert log'[j] == log[j]; }
    }
  }

  lemma AppendParentFirst(cwd: Path, log: seq<Path>, dir: Path)
    requires forall i | 0 <= i < |log| :: Dirname(log[i]) == cwd || Dirname(log[i]) in log[..i]
    requires Dirname(dir) == cwd || Dirname(dir) in log
    ensures forall i | 0 <= i < |log + [dir]| ::
              Dirname((log + [dir])[i]) == cwd || Dirname((log + [dir])[i]) in (log + [dir])[..i]
  {
    var log' := log + [dir];
    forall i | 0 <= i < |log'| ensures Dirname(log'[i]) == cwd || Dirname(log'[i]) in log'[..i] {
      if i < |log| {
        assert log'[i] == log[i] && log'[..i] == log[..i];
      } else {
        assert log'[..i] == log;
      }
    }
  }

  lemma ExtendNoAttempt(cwd: Path, e: map<Path, Outcome>, log: seq<Path>, dir: Path)
    requires TableShape(cwd, e) && AttemptsMatch(cwd, e, log)
    requires Under(cwd, dir) && dir != cwd && dir !in e && Dirname(dir) in e
    requires e[Dirname(dir)].Poisoned?
    requires TableShape(cwd, e[dir := e[Dirname(dir)]])
    ensures AttemptsMatch(cwd, e[dir := e[Dirname(dir)]], log)
  {
    assert forall p | p in e && p != cwd :: Dirname(p) != dir;
    assert dir !in log;
  }

  /** `Ensure` keeps the invariant, and afterwards every directory from
      `cwd` down to `dir` has an entry. */
  lemma {:induction false} EnsureKeepsInv(cwd: Path, m: Memo, dir: Path)
    requires MemoInv(cwd, m) && Under(cwd, dir)
    ensures MemoInv(cwd, Ensure(cwd, m, dir).0)
    ensures Ensure(cwd, m, dir).0.entries.Keys == m.entries.Keys + Chain(cwd, dir)
    decreases |dir|
  {
    if dir in m.entries {
      ChainInEntries(cwd, m, dir);
    } else {
      ParentStaysUnder(cwd, dir);
      ChainStep(cwd, dir);
      EnsureKeepsInv(cwd, m, Dirname(dir));
      var (m1, _) := Ensure(cwd, m, Dirname(dir));
      ExtendKeepsInv(cwd, m1, dir);
    }
  }

  /** With the invariant, a recorded path has all its ancestors recorded. */
  lemma {:induction false} ChainInEntries(cwd: Path, m: Memo, dir: Path)
    requires MemoInv(cwd, m) && dir in m.entries
    ensures Chain(cwd, dir) <= m.entries.Keys
    decreases |dir|
  {
    if dir != cwd {
      ParentStaysUnder(cwd, dir);
      ChainStep(cwd, dir);
      ChainInEntries(cwd, m, Dirname(dir));
    } else {
      assert Chain(cwd, dir) == {cwd} by {
        forall q | q in Chain(cwd, dir) ensures q == cwd {
          var j :| |cwd| <= j <= |dir| && q == dir[..j];
        }
        assert dir[..|cwd|] in Chain(cwd, dir);
      }
    }
  }

  lemma {:induction false} EnsureAllKeepsInv(cwd: Path, m: Memo, dirs: seq<Path>)
    requires MemoInv(cwd, m) && forall i | 0 <= i < |dirs| :: Under(cwd, dirs[i])
    ensures MemoInv(cwd, EnsureAll(cwd, m, dirs))
    decreases |dirs|
  {
    if dirs != [] {
      EnsureKeepsInv(cwd, m, dirs[0]);
      var m1 := Ensure(cwd, m, dirs[0]).0;
      assert forall i | 0 <= i < |dirs[1..]| :: dirs[1..][i] == dirs[i + 1];
      EnsureAllKeepsInv(cwd, m1, dirs[1..]);
    }
  }

  /** Over any sequence of requests starting from the pre-seeded table:
      no `mkdir` is ever attempted for `cwd`, no path is attempted twice,
      and every attempt comes after its parent's (or its parent is `cwd`). */
  lemma AtMostOneAttempt(cwd: Path, disk: Disk, dirs: seq<Path>)
    requires cwd in disk.dirs && disk.mkdirLog == []
    requires forall i | 0 <= i < |dirs| :: Under(cwd, dirs[i])
    ensures var log := EnsureAll(cwd, SeededTable(cwd, disk), dirs).disk.mkdirLog;
      && cwd !in log
      && (forall i, j | 0 <= i < j < |log| :: log[i] != log[j])
      && (forall i {:trigger Dirname(log[i])} | 0 <= i < |log| :: Dirname(log[i]) == cwd || Dirname(log[i]) in log[..i])
  {
    InitialInv(cwd, disk);
    EnsureAllKeepsInv(cwd, SeededTable(cwd, disk), dirs);
  }

  /** Dedup: once a path has an entry, any later request for it, after any
      other requests in between, returns the same outcome and changes
      nothing, so a failure is never retried. */
  lemma RepeatedRequest(cwd: Path, m: Memo, dir: Path, between: seq<Path>)
    requires cwd in m.entries && Under(cwd, dir)
    requires forall i | 0 <= i < |between| :: Under(cwd, between[i])
    ensures var (m1, o1) := Ensure(cwd, m, dir);
      var m2 := EnsureAll(cwd, m1, between);
      Ensure(cwd, m2, dir) == (m2, o1)
  {
  }

  /** Parent first, and how `mkdir`'s result settles a new entry. */
  lemma NewPath(cwd: Path, m: Memo, dir: Path)
    requires MemoInv(cwd, m) && Under(cwd, dir) && dir !in m.entries
    ensures dir != cwd
    ensures var (m1, parent) := Ensure(cwd, m, Dirname(dir));
      var (m', o) := Ensure(cwd, m, dir);
      // the parent's entry, and every ancestor's up to cwd, is recorded
      && Chain(cwd, dir) <= m'.entries.Keys
      && m'.entries[Dirname(dir)] == parent
      // a failed parent fails the child, with no attempt
      && (parent.Poisoned? ==> o == parent && m'.disk == m1.disk && dir !in m'.disk.mkdirLog)
      // a ready parent is followed by one attempt, after the ancestors'
      && (parent == Ready ==> m'.disk.mkdirLog == m1.disk.mkdirLog + [dir])
      // an existing directory (EEXIST) is success
      && (parent == Ready && dir in m.disk.dirs ==> o == Ready)
      // a refused mkdir is a cached failure
      && (parent == Ready && dir !in m.disk.dirs && dir in m.disk.denied ==> o == Poisoned(EACCES))
      // otherwise the directory is created
      && (parent == Ready && dir !in m.disk.dirs && dir !in m.disk.denied ==> o == Ready && dir in m'.disk.dirs)
  {
    ParentStaysUnder(cwd, dir);
    ChainStep(cwd, dir);
    EnsureKeepsInv(cwd, m, Dirname(dir));
    EnsureKeepsInv(cwd, m, dir);
    var (m1, parent) := Ensure(cwd, m, Dirname(dir));
    assert dir !in m1.disk.dirs <== dir !in m.disk.dirs;
    if parent == Ready {
      assert Dirname(dir) in m1.disk.dirs;
    } else {
      assert dir !in m1.disk.mkdirLog;
    }
  }

  /** On a disk that refuses nothing, with every entry so far ready, a
      request below `cwd` succeeds and leaves every entry ready: each
      `mkdir` runs under an existing parent, so it creates the directory or
      finds it there (`EEXIST`). */
  lemma {:induction false} EnsureSucceeds(cwd: Path, m: Memo, dir: Path)
    requires MemoInv(cwd, m) && AllReady(m.entries) && m.disk.denied == {} && Under(cwd, dir)
    ensures Ensure(cwd, m, dir).1 == Ready && AllReady(Ensure(cwd, m, dir).0.entries)
    decreases |dir|
  {
    if dir !in m.entries {
      ParentStaysUnder(cwd, dir);
      EnsureSucceeds(cwd, m, Dirname(dir));
      EnsureKeepsInv(cwd, m, Dirname(dir));
      var (m1, parent) := Ensure(cwd, m, Dirname(dir));
      assert Dirname(dir) in m1.disk.dirs;
      assert MkdirError(m1.disk, dir) == None || MkdirError(m1.disk, dir) == Some(EEXIST);
    }
  }

  /** The memo table of src/cli.js:55, updated in place. */
  class DirectoryCreator {
    const cwd: Path
    const fs: FileSystem
    var entries: map<Path, Outcome>

    function Table(): Memo
      reads this, fs
    {
      Memo(entries, fs.State())
    }

    ghost predicate Valid()
      reads this, fs
    {
      MemoInv(cwd, Table())
    }

    /** The process's working directory exists, and no `mkdir` has been
        issued yet. */
    constructor (cwd: Path, fs: FileSystem)
      requires cwd in fs.dirs && fs.mkdirLog == []
      ensures this.cwd == cwd && this.fs == fs
      ensures entries == map[cwd := Ready] && Valid()
    {
      this.cwd := cwd;
      this.fs := fs;
      entries := map[cwd := Ready];
      new;
      InitialInv(cwd, fs.State());
    }

    /** `ensureDirExists(dir)`. */
    method EnsureDirExists(dir: Path) returns (o: Outcome)
      requires Valid() && Under(cwd, dir)
      modifies this, fs
      ensures (Table(), o) == Ensure(cwd, old(Table()), dir)
      ensures Valid()
      // afterwards every directory from `cwd` down to `dir` has an entry
      ensures entries.Keys == old(entries.Keys) + Chain(cwd, dir)
      decreases |dir|
    {
      EnsureKeepsInv(cwd, Table(), dir);
      ghost var m0 := Table();
      if dir !in entries {
        ParentStaysUnder(cwd, dir);
        var parent := EnsureDirExists(Dirname(dir));
        ghost var m1 := Table();
        assert Ensure(cwd, m0, dir) == Extend(m1, dir);
        var outcome := parent;
        if parent == Ready {
          var err := fs.Mkdir(dir);
          outcome := MkdirOutcome(err);
          assert (fs.State(), err) == DiskMkdir(m1.disk, dir);
        }
        entries := entries[dir := outcome];
        assert (Table(), outcome) == Extend(m1, dir);
      }
      o := entries[dir];
    }

    /** `ensureDirExists(dir)` as a build's task calls it, for any path:
        outside `cwd` the call throws and nothing changes. */
    method RequestDir(dir: Path) returns (o: Option<Outcome>)
      requires Valid()
      modifies this, fs
      ensures (Table(), o) == Request(cwd, old(Table()), dir)
      ensures Valid()
    {
      if Under(cwd, dir) {
        var r := EnsureDirExists(dir);
        o := Some(r);
      } else {
        o := None;
      }
    }
  }
}
