/** Paths as sequences of segments: the part of Node's `path` module the
    build script relies on. An absolute path lists its segments from the
    filesystem root; the root itself is the empty sequence. */
module Paths {

  type Path = seq<string>

  /** `path.dirname`: drops the last segment; the root is its own parent. */
  function Dirname(p: Path): (r: Path)
    ensures p == [] ==> r == []
    ensures p != [] ==> |r| == |p| - 1 && r + [p[|p| - 1]] == p
  {
    if p == [] then [] else p[..|p| - 1]
  }

  /** `path.basename`: the last segment, or "" for the root. */
  function Basename(p: Path): (r: string)
    ensures p != [] ==> Dirname(p) + [r] == p
  {
    if p == [] then "" else p[|p| - 1]
  }

  /** `root` is `p` itself or one of its ancestors. */
  predicate Under(root: Path, p: Path) {
    |root| <= |p| && p[..|root|] == root
  }

  /** A path whose parent is at or below `root` is itself below `root`. */
  lemma UnderParent(root: Path, p: Path)
    requires Under(root, Dirname(p))
    ensures Under(root, p)
  {
    if p != [] {
      assert p[..|root|] == Dirname(p)[..|root|];
    }
  }

  /** Every directory from `root` down to `p`, both included. */
  function Chain(root: Path, p: Path): set<Path>
  {
    set j | |root| <= j <= |p| :: p[..j]
  }

  lemma ParentStaysUnder(root: Path, p: Path)
    requires Under(root, p) && p != root
    ensures Under(root, Dirname(p)) && |Dirname(p)| < |p|
  {
  }

  /** The chain of `p` is its own entry plus the chain of its parent. */
  lemma ChainStep(root: Path, p: Path)
    requires Under(root, p) && p != root
    ensures Chain(root, p) == Chain(root, Dirname(p)) + {p}
  {
    var d := Dirname(p);
    assert forall j | |root| <= j <= |d| :: d[..j] == p[..j];
    forall q | q in Chain(root, p) ensures q in Chain(root, d) + {p} {
      var j :| |root| <= j <= |p| && q == p[..j];
      if j < |p| { assert q == d[..j]; } else { assert q == p; }
    }
    forall q | q in Chain(root, d) + {p} ensures q in Chain(root, p) {
      if q != p {
        var j :| |root| <= j <= |d| && q == d[..j];
        assert q == p[..j];
      } else {
        assert q == p[..|p|];
      }
    }
  }

  /** A path as written in the configuration, before `path.resolve`.
      "." and ".." segments are not part of this model. */
  datatype PathText = Absolute(segments: Path) | Relative(segments: seq<string>)

  /** `path.resolve(cwd, t)`. */
  function Resolve(cwd: Path, t: PathText): (r: Path)
    ensures t.Relative? ==> Under(cwd, r) && r[|cwd|..] == t.segments
    ensures t.Absolute? ==> r == t.segments
  {
    match t
    case Absolute(s) => s
    case Relative(s) => cwd + s
  }

  /** Length of the longest common prefix of two paths. */
  function CommonPrefixLength(a: Path, b: Path): (k: nat)
    ensures k <= |a| && k <= |b| && a[..k] == b[..k]
    ensures k < |a| && k < |b| ==> a[k] != b[k]
  {
    if a == [] || b == [] || a[0] != b[0] then 0
    else
      var k := 1 + CommonPrefixLength(a[1..], b[1..]);
      assert a[..k] == [a[0]] + a[1..][..k - 1];
      assert b[..k] == [b[0]] + b[1..][..k - 1];
      k
  }

  function Ups(n: nat): (r: seq<string>)
    ensures |r| == n && forall i | 0 <= i < n :: r[i] == ".."
  {
    if n == 0 then [] else [".."] + Ups(n - 1)
  }

  /** The segments of `path.relative(from, to)`: climb out of `from` to the
      common ancestor, then descend into `to`. */
  function RelativeSegments(from: Path, to: Path): seq<string>
  {
    var k := CommonPrefixLength(from, to);
    Ups(|from| - k) + to[k..]
  }

  /** `path.relative(from, to)` as text: the segments joined with "/". */
  function RelativeText(from: Path, to: Path): string
  {
    JoinText(RelativeSegments(from, to))
  }

  function JoinText(segs: seq<string>): string
  {
    if segs == [] then ""
    else if |segs| == 1 then segs[0]
    else segs[0] + "/" + JoinText(segs[1..])
  }

  /** Follows relative segments from a directory: ".." climbs to the
      parent, any other segment descends. */
  function Walk(from: Path, segs: seq<string>): Path
    decreases |segs|
  {
    if segs == [] then from
    else if segs[0] == ".." then Walk(Dirname(from), segs[1..])
    else Walk(from + [segs[0]], segs[1..])
  }

  predicate Plain(p: Path) {
    forall i | 0 <= i < |p| :: p[i] != ".."
  }

  lemma {:induction false} WalkPlain(from: Path, segs: seq<string>)
    requires Plain(segs)
    ensures Walk(from, segs) == from + segs
    decreases |segs|
  {
    if segs != [] {
      assert Plain(segs[1..]) by {
        forall i | 0 <= i < |segs[1..]| ensures segs[1..][i] != ".." {
          assert segs[1..][i] == segs[i + 1];
        }
      }
      WalkPlain(from + [segs[0]], segs[1..]);
      assert from + [segs[0]] + segs[1..] == from + segs;
    }
  }

  lemma {:induction false} WalkUps(from: Path, n: nat, rest: seq<string>)
    requires n <= |from|
    ensures Walk(from, Ups(n) + rest) == Walk(from[..|from| - n], rest)
    decreases n
  {
    if n == 0 {
      assert Ups(n) + rest == rest;
      assert from[..|from|] == from;
    } else {
      var s := Ups(n) + rest;
      assert s[0] == ".." && s[1..] == Ups(n - 1) + rest;
      assert Walk(from, s) == Walk(Dirname(from), Ups(n - 1) + rest);
      WalkUps(Dirname(from), n - 1, rest);
      assert Dirname(from)[..|Dirname(from)| - (n - 1)] == from[..|from| - n];
    }
  }

  /** Round trip of `path.relative`: walking the relative path from `from`
      arrives at `to` (for paths free of ".." segments). So the recorded
      `sourceRoot` leads from the output directory back to the source root. */
  lemma RelativeRoundTrip(from: Path, to: Path)
    requires Plain(to)
    ensures Walk(from, RelativeSegments(from, to)) == to
  {
    var k := CommonPrefixLength(from, to);
    WalkUps(from, |from| - k, to[k..]);
    assert from[..|from| - (|from| - k)] == to[..k];
    assert Plain(to[k..]) by {
      forall i | 0 <= i < |to[k..]| ensures to[k..][i] != ".." {
        assert to[k..][i] == to[k + i];
      }
    }
    WalkPlain(to[..k], to[k..]);
    assert to[..k] + to[k..] == to;
  }
}
