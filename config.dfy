/** Loading the build configuration (src/cli.js:28-49): defaulting the
    source root and each build's output directory, merging each build's
    options with the shared defaults, and resolving paths against the
    working directory. */
module Config {
  import opened Wrappers
  import opened Paths
  import opened Json
  import opened Decimal

  /** A build as written in the configuration file; `None` is an absent
      (or, for `options`, falsy) property. */
  datatype BuildSpec = BuildSpec(dir: Option<PathText>, options: Option<Fields>)

  datatype RawConfig = RawConfig(source: Option<PathText>, builds: seq<BuildSpec>, defaults: Option<Fields>)

  /** A normalised build: an absolute output directory and merged options. */
  datatype Build = Build(dir: Path, options: Fields)

  datatype Config = Config(source: Path, builds: seq<Build>)

  const DefaultSource: PathText := Relative(["src"])

  /** `'dist-' + i`. */
  function DefaultDir(i: nat): PathText
  {
    Relative(["dist-" + DecimalText(i)])
  }

  /** JavaScript's `a.concat(b)` with one argument: an array argument is
      spread, any other value is appended as one element. */
  function Concat(a: seq<Value>, b: Value): (r: seq<Value>)
  {
    if b.Arr? then a + b.items else a + [b]
  }

  /** Merging one value from `defaults` (`b`) into a build's value (`a`):
      the customizer of src/cli.js:40-42 concatenates when `a` is an array;
      otherwise lodash's own rule applies, which this model takes to be: two
      objects merge key by key (with the same customizer), and anything else
      is replaced by the defaults' value. */
  function MergeValue(a: Value, b: Value): Value
  {
    if a.Arr? then Arr(Concat(a.items, b))
    else if a.Obj? && b.Obj? then
      Obj(map k | k in a.fields.Keys + b.fields.Keys ::
        if k in a.fields && k in b.fields then MergeValue(a.fields[k], b.fields[k])
        else if k in b.fields then b.fields[k]
        else a.fields[k])
    else b
  }

  /** `merge(options, defaults, customizer)` on two objects. */
  function MergeFields(options: Fields, defaults: Fields): (r: Fields)
    ensures r.Keys == options.Keys + defaults.Keys
    // keys only the build sets are left alone
    ensures forall k | k in options && k !in defaults :: r[k] == options[k]
    // keys only the defaults set are taken over
    ensures forall k | k in defaults && k !in options :: r[k] == defaults[k]
    // a build array gets the default's value appended, build elements first
    ensures forall k | k in options && k in defaults && options[k].Arr? ::
              r[k].Arr? && r[k].items == Concat(options[k].items, defaults[k])
  {
    var r := MergeValue(Obj(options), Obj(defaults)).fields;
    assert forall k | k in options && k in defaults :: r[k] == MergeValue(options[k], defaults[k]);
    r
  }

  /** lodash skips a missing source object. */
  function MergeOptions(options: Fields, defaults: Option<Fields>): Fields
  {
    match defaults
    case None => options
    case Some(d) => MergeFields(options, d)
  }

  /** The array rule stated outright: the merged array is the build's
      elements followed by the defaults' (spread if an array). */
  lemma ArrayMerge(options: Fields, defaults: Fields, k: string)
    requires k in options && options[k].Arr? && k in defaults
    ensures var r := MergeFields(options, defaults)[k];
      && r.Arr?
      && r.items[..|options[k].items|] == options[k].items
      && (defaults[k].Arr? ==> r.items[|options[k].items|..] == defaults[k].items)
      && (!defaults[k].Arr? ==> r.items[|options[k].items|..] == [defaults[k]])
  {
    var r := MergeFields(options, defaults)[k];
    var a := options[k].items;
    if defaults[k].Arr? {
      assert r.items == a + defaults[k].items;
    } else {
      assert r.items == a + [defaults[k]];
    }
  }

  /** Merging with empty defaults leaves the options as they were. */
  lemma MergeNothing(options: Fields)
    ensures MergeFields(options, map[]) == options
  {
    var r := MergeFields(options, map[]);
    assert r.Keys == options.Keys;
    forall k | k in r ensures r[k] == options[k] {}
  }

  /** `config.source` after `defaults(config, {source: 'src'})` and
      `path.resolve`. */
  function NormaliseSource(cwd: Path, source: Option<PathText>): (r: Path)
    ensures source == None ==> r == cwd + ["src"]
    ensures source.Some? ==> r == Resolve(cwd, source.value)
  {
    Resolve(cwd, if source.Some? then source.value else DefaultSource)
  }

  /** Build `i` after the body of the `forEach` at src/cli.js:34-45: both
      properties are now present, `dir` absolute and `options` merged. */
  function Normalised(cwd: Path, b: BuildSpec, i: nat, defaults: Option<Fields>): BuildSpec
  {
    var dir := if b.dir.Some? then b.dir.value else DefaultDir(i);
    var options := if b.options.Some? then b.options.value else map[];
    BuildSpec(Some(Absolute(Resolve(cwd, dir))), Some(MergeOptions(options, defaults)))
  }

  /** The `forEach` over `config.builds`, updating each build in place. */
  method NormaliseBuilds(cwd: Path, builds: array<BuildSpec>, defaults: Option<Fields>)
    modifies builds
    ensures forall i | 0 <= i < builds.Length :: builds[i] == Normalised(cwd, old(builds[i]), i, defaults)
  {
    for i := 0 to builds.Length
      invariant forall j | 0 <= j < i :: builds[j] == Normalised(cwd, old(builds[j]), j, defaults)
      invariant forall j | i <= j < builds.Length :: builds[j] == old(builds[j])
    {
      var b := builds[i];
      if b.dir.None? {
        b := b.(dir := Some(DefaultDir(i)));
      }
      if b.options.None? {
        b := b.(options := Some(map[]));
      }
      b := b.(options := Some(MergeOptions(b.options.value, defaults)));
      b := b.(dir := Some(Absolute(Resolve(cwd, b.dir.value))));
      builds[i] := b;
    }
  }

  /** A normalised build read back as a `Build`. */
  function AsBuild(b: BuildSpec): Build
    requires b.dir.Some? && b.options.Some?
  {
    Build(b.dir.value.segments, b.options.value)
  }

  /** What build `i` ends up as. */
  function BuildOf(cwd: Path, b: BuildSpec, i: nat, defaults: Option<Fields>): (r: Build)
    ensures r.dir == Resolve(cwd, if b.dir.Some? then b.dir.value else DefaultDir(i))
    ensures r.options == MergeOptions(if b.options.Some? then b.options.value else map[], defaults)
  {
    AsBuild(Normalised(cwd, b, i, defaults))
  }

  /** Normalises a configuration: the source root and every build. */
  /** The configuration `Load` produces, as a value. */
  function Loaded(cwd: Path, raw: RawConfig): Config
  {
    Config(NormaliseSource(cwd, raw.source),
           seq(|raw.builds|, i requires 0 <= i < |raw.builds| => BuildOf(cwd, raw.builds[i], i, raw.defaults)))
  }

  method Load(cwd: Path, raw: RawConfig) returns (cfg: Config)
    ensures cfg == Loaded(cwd, raw)
    ensures cfg.source == NormaliseSource(cwd, raw.source)
    ensures |cfg.builds| == |raw.builds|
    ensures forall i | 0 <= i < |raw.builds| :: cfg.builds[i] == BuildOf(cwd, raw.builds[i], i, raw.defaults)
  {
    var builds := new BuildSpec[|raw.builds|](i requires 0 <= i < |raw.builds| => raw.builds[i]);
    NormaliseBuilds(cwd, builds, raw.defaults);
    var result: seq<Build> := [];
    for i := 0 to builds.Length
      invariant |result| == i
      invariant forall j | 0 <= j < i :: result[j] == BuildOf(cwd, raw.builds[j], j, raw.defaults)
    {
      result := result + [AsBuild(builds[i])];
    }
    cfg := Config(NormaliseSource(cwd, raw.source), result);
    assert cfg.builds == Loaded(cwd, raw).builds;
  }

  /** Builds without a `dir` get pairwise different output directories. */
  lemma DefaultDirsDistinct(cwd: Path, raw: RawConfig, i: nat, j: nat)
    requires i < |raw.builds| && j < |raw.builds| && i != j
    requires raw.builds[i].dir == None && raw.builds[j].dir == None
    ensures BuildOf(cwd, raw.builds[i], i, raw.defaults).dir != BuildOf(cwd, raw.builds[j], j, raw.defaults).dir
  {
    DecimalTextInjective(i, j);
    var di := BuildOf(cwd, raw.builds[i], i, raw.defaults).dir;
    var dj := BuildOf(cwd, raw.builds[j], j, raw.defaults).dir;
    assert di[|cwd|..] == ["dist-" + DecimalText(i)];
    assert dj[|cwd|..] == ["dist-" + DecimalText(j)];
    assert ("dist-" + DecimalText(i))[5..] == DecimalText(i);
    assert ("dist-" + DecimalText(j))[5..] == DecimalText(j);
  }

  /** A configuration whose paths are all relative keeps every output
      directory below the working directory, which is what
      `ensureDirExists` needs to terminate. */
  lemma RelativeBuildsStayUnder(cwd: Path, raw: RawConfig, i: nat)
    requires i < |raw.builds|
    requires raw.builds[i].dir.Some? ==> raw.builds[i].dir.value.Relative?
    ensures Under(cwd, BuildOf(cwd, raw.builds[i], i, raw.defaults).dir)
  {
  }

  /** `destDirs` (src/cli.js:49): `path.resolve(cwd, build.dir)` of an
      already absolute directory is that directory. */
  function DestDirs(cwd: Path, builds: seq<Build>): (r: seq<Path>)
    ensures |r| == |builds| && forall i | 0 <= i < |builds| :: r[i] == builds[i].dir
  {
    seq(|builds|, i requires 0 <= i < |builds| => Resolve(cwd, Absolute(builds[i].dir)))
  }
}
