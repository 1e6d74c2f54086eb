/** The filesystem the build script talks to, reduced to what its
    decisions depend on: which directories exist, which paths refuse to be
    created or written, the source texts, and a record of every `mkdir`,
    read and write it is asked for. Byte content and timing are not part of
    this model. */
module FileSystem {
  import opened Wrappers
  import opened Paths
  import opened Json

  /** The error codes `mkdirAsync` and `writeFileAsync` can reject with. */
  datatype ErrorCode = EEXIST | ENOENT | EACCES

  /** What a write puts on disk: compiled code or a source map object. */
  datatype Artifact = CodeText(text: string) | MapJson(fields: Fields)

  datatype WriteOp = WriteOp(path: Path, content: Artifact)

  /** A snapshot of the filesystem. */
  datatype Disk = Disk(
    dirs: set<Path>,          // directories that exist
    denied: set<Path>,        // paths where creating or writing fails
    sources: map<Path, string>, // readable source files
    mkdirLog: seq<Path>,      // every mkdir issued, in order
    readLog: seq<Path>,       // every read issued, in order
    writeLog: seq<WriteOp>)   // every write issued, in order

  /** The error `mkdir(p)` fails with, if any. */
  function MkdirError(d: Disk, p: Path): (e: Option<ErrorCode>)
    ensures e == Some(EEXIST) <==> p in d.dirs
    ensures e == None ==> p !in d.denied && Dirname(p) in d.dirs
  {
    if p in d.dirs then Some(EEXIST)
    else if p in d.denied then Some(EACCES)
    else if Dirname(p) !in d.dirs then Some(ENOENT)
    else None
  }

  /** `mkdir(p)`: recorded; creates `p` when it does not fail. */
  function DiskMkdir(d: Disk, p: Path): (r: (Disk, Option<ErrorCode>))
    ensures r.1 == MkdirError(d, p)
    ensures r.0.mkdirLog == d.mkdirLog + [p]
    ensures r.0.dirs == if r.1 == None then d.dirs + {p} else d.dirs
    ensures r.0 == d.(dirs := r.0.dirs, mkdirLog := r.0.mkdirLog)
  {
    var e := MkdirError(d, p);
    (d.(dirs := if e == None then d.dirs + {p} else d.dirs, mkdirLog := d.mkdirLog + [p]), e)
  }

  /** The error `writeFile(p, _)` fails with, if any. */
  function WriteError(d: Disk, p: Path): (e: Option<ErrorCode>)
    ensures e == None <==> Dirname(p) in d.dirs && p !in d.denied
  {
    if Dirname(p) !in d.dirs then Some(ENOENT)
    else if p in d.denied then Some(EACCES)
    else None
  }

  class FileSystem {
    var dirs: set<Path>
    const denied: set<Path>
    const sources: map<Path, string>
    var mkdirLog: seq<Path>
    var readLog: seq<Path>
    var writeLog: seq<WriteOp>

    function State(): Disk
      reads this
    {
      Disk(dirs, denied, sources, mkdirLog, readLog, writeLog)
    }

    constructor (dirs: set<Path>, denied: set<Path>, sources: map<Path, string>)
      ensures State() == Disk(dirs, denied, sources, [], [], [])
    {
      this.dirs := dirs;
      this.denied := denied;
      this.sources := sources;
      mkdirLog, readLog, writeLog := [], [], [];
    }

    /** `fs.mkdirAsync(p)`. */
    method Mkdir(p: Path) returns (err: Option<ErrorCode>)
      modifies this
      ensures (State(), err) == DiskMkdir(old(State()), p)
    {
      err := MkdirError(State(), p);
      if err == None {
        dirs := dirs + {p};
      }
      mkdirLog := mkdirLog + [p];
    }

    /** `fs.readFileAsync(p, 'utf8')`: fails when there is no such file. */
    method ReadFile(p: Path) returns (text: Option<string>)
      modifies this
      ensures text == if p in sources then Some(sources[p]) else None
      ensures State() == old(State()).(readLog := old(readLog) + [p])
    {
      text := if p in sources then Some(sources[p]) else None;
      readLog := readLog + [p];
    }

    /** `fs.writeFileAsync(p, content)`: the attempt is recorded whether or
        not it succeeds. */
    method WriteFile(p: Path, content: Artifact) returns (err: Option<ErrorCode>)
      modifies this
      ensures err == WriteError(old(State()), p)
      ensures State() == old(State()).(writeLog := old(writeLog) + [WriteOp(p, content)])
    {
      err := WriteError(State(), p);
      writeLog := writeLog + [WriteOp(p, content)];
    }
  }
}
