/** File-system paths as sequences of components, `os.path.relpath`, and the
    listing that `os.walk` produces. An absolute path starts with its root
    component (`""` for the POSIX root, so that joining with `/` renders it). */
module Paths {
  import opened Strings
  import opened Sequences

  type Path = seq<string>

  predicate IsPrefix(p: Path, q: Path) {
    |p| <= |q| && q[..|p|] == p
  }

  /** `os.path.dirname`, on components. */
  function Parent(p: Path): Path {
    if p == [] then [] else p[..|p| - 1]
  }

  /** `os.path.basename`, on components. */
  function Name(p: Path): string {
    if p == [] then "" else p[|p| - 1]
  }

  /** `Path(p).name`, falling back to the parent's name when it is empty
      (`ProjectCompiler._extract_project_name`). */
  function ProjectName(p: Path): (r: string)
    ensures Name(p) != "" ==> r == Name(p)
    ensures Name(p) == "" ==> r == Name(Parent(p))
    ensures r != "" ==> r in p
  {
    var name := Name(p);
    if name == "" then Name(Parent(p)) else name
  }

  /** A component that names a directory entry: not empty, not `.`, not `..`. */
  predicate Plain(c: string) {
    c != "" && c != "." && c != ".."
  }

  /** A normalised absolute path: the root component, then plain components. */
  predicate Normal(p: Path) {
    |p| >= 1 && p[0] == "" && forall i :: 1 <= i < |p| ==> Plain(p[i])
  }

  /** `posixpath.normpath` below the root: `stack` holds the plain components
      reached so far; empty and `.` components are dropped, `..` climbs one
      level and stops at the root. */
  function Resolve(stack: seq<string>, comps: Path): (r: seq<string>)
    requires forall i :: 0 <= i < |stack| ==> Plain(stack[i])
    ensures forall i :: 0 <= i < |r| ==> Plain(r[i])
    decreases |comps|
  {
    if comps == [] then stack
    else if comps[0] == "" || comps[0] == "." then Resolve(stack, comps[1..])
    else if comps[0] == ".." then Resolve(if stack == [] then [] else stack[..|stack| - 1], comps[1..])
    else Resolve(stack + [comps[0]], comps[1..])
  }

  /** `os.path.abspath(raw)` on POSIX: the text split at `/`, taken from the
      working directory `cwd` unless it starts with `/`, and normalised. */
  function AbsPath(raw: string, cwd: Path): (r: Path)
    requires Normal(cwd)
    ensures Normal(r)
  {
    var parts := Split(raw, '/');
    var from := if |parts| >= 2 && parts[0] == "" then [] else cwd[1..];
    [""] + Resolve(from, parts)
  }

  /** `normpath` keeps plain components as they are. */
  lemma {:induction false} ResolvePlain(stack: seq<string>, comps: Path)
    requires forall i :: 0 <= i < |stack| ==> Plain(stack[i])
    requires forall i :: 0 <= i < |comps| ==> Plain(comps[i])
    ensures Resolve(stack, comps) == stack + comps
    decreases |comps|
  {
    if comps != [] {
      ResolvePlain(stack + [comps[0]], comps[1..]);
      assert stack + [comps[0]] + comps[1..] == stack + comps;
    }
  }

  /** No component holds the separator `/`, as is so for every path the file system names. */
  predicate SlashFree(p: Path) {
    forall i :: 0 <= i < |p| ==> '/' !in p[i]
  }

  /** The text of a normalised absolute path below the root is its own absolute path. */
  lemma AbsPathOfRendered(p: Path, cwd: Path)
    requires Normal(p) && |p| >= 2 && SlashFree(p) && Normal(cwd)
    ensures AbsPath(Render(p, "/"), cwd) == p
  {
    assert "/" == ['/'];
    SplitJoin(p, '/');
    ResolvePlain([], p[1..]);
    assert Resolve([], p) == Resolve([], p[1..]);
    assert p == [""] + p[1..];
  }

  /** A relative text made of plain names is appended to the working directory. */
  lemma AbsPathOfRelative(raw: string, cwd: Path)
    requires Normal(cwd)
    requires forall i :: 0 <= i < |Split(raw, '/')| ==> Plain(Split(raw, '/')[i])
    ensures AbsPath(raw, cwd) == cwd + Split(raw, '/')
  {
    ResolvePlain(cwd[1..], Split(raw, '/'));
    assert cwd == [""] + cwd[1..];
  }

  /** The last component of `parts` that is neither empty nor `.`, or `""`. */
  function LastNamed(parts: seq<string>): (r: string)
    ensures r != "" ==> r in parts && r != "."
  {
    if parts == [] then ""
    else if parts[|parts| - 1] != "" && parts[|parts| - 1] != "." then parts[|parts| - 1]
    else LastNamed(parts[..|parts| - 1])
  }

  /** `pathlib.Path(raw).name`: pathlib drops empty and `.` components but
      keeps `..`, and takes the last one that remains. */
  function PathlibName(raw: string): (r: string)
    ensures r != "" ==> r != "." && '/' !in r
  {
    LastNamed(Split(raw, '/'))
  }

  /** `os.path.join(*p)` with the platform separator. */
  function Render(p: Path, sep: string): string {
    Join(sep, p)
  }

  /** `os.path.join(base, rel)` on POSIX, on components: a relative text is
      appended component by component; an absolute one replaces the base. */
  function JoinPath(base: Path, rel: string): (r: Path)
    ensures StartsWith(rel, "/") ==> r == Split(rel, '/')
    ensures !StartsWith(rel, "/") ==> IsPrefix(base, r) && r[|base|..] == Split(rel, '/')
  {
    if |rel| > 0 && rel[0] == '/' then Split(rel, '/') else base + Split(rel, '/')
  }

  /** `os.path.join(base, rel)` on text joined with `sep`: a text that starts
      with `/` or with `sep` is absolute and replaces the base. */
  function JoinText(base: string, rel: string, sep: string): string {
    if StartsWith(rel, "/") || StartsWith(rel, sep) then rel else base + sep + rel
  }

  /** On POSIX, the joined text names the path that `JoinPath` builds on
      components; in particular an absolute `rel` is kept as it stands. */
  lemma JoinTextRendered(base: Path, rel: string)
    requires |base| > 0 && SlashFree(base)
    ensures StartsWith(rel, "/") ==> JoinText(Render(base, "/"), rel, "/") == rel
    ensures Split(JoinText(Render(base, "/"), rel, "/"), '/') == JoinPath(base, rel)
  {
    if !StartsWith(rel, "/") {
      assert "/" == ['/'];
      SplitJoinThen(base, rel, '/');
    }
  }

  /** The length of the longest common prefix of `a` and `b`. */
  function CommonPrefixLength(a: Path, b: Path): (k: nat)
    ensures k <= |a| && k <= |b|
    ensures a[..k] == b[..k]
    ensures k < |a| && k < |b| ==> a[k] != b[k]
  {
    if a == [] || b == [] || a[0] != b[0] then 0
    else
      var k := CommonPrefixLength(a[1..], b[1..]);
      assert a[..k + 1] == [a[0]] + a[1..][..k];
      assert b[..k + 1] == [b[0]] + b[1..][..k];
      k + 1
  }

  function Ups(n: nat): (r: Path)
    ensures |r| == n
    ensures forall i :: 0 <= i < n ==> r[i] == ".."
  {
    if n == 0 then [] else Ups(n - 1) + [".."]
  }

  /** `os.path.relpath(f, start)` for normalised absolute paths: climb from
      `start` to the common ancestor, then descend to `f`; `.` when they agree. */
  function RelPath(f: Path, start: Path): (r: Path)
    ensures r != []
  {
    var k := CommonPrefixLength(f, start);
    var up := Ups(|start| - k) + f[k..];
    if up == [] then ["."] else up
  }

  /** Below its start directory, the relative path is the tail after it. */
  lemma RelPathBelow(f: Path, start: Path)
    requires IsPrefix(start, f) && |f| > |start|
    ensures RelPath(f, start) == f[|start|..]
  {
    var k := CommonPrefixLength(f, start);
    assert f[..|start|] == start;
    assert k == |start|;
  }

  /** One file reported by `os.walk`: the directory it was found in and its name. */
  datatype WalkEntry = WalkEntry(dir: Path, name: string)

  function FullPath(e: WalkEntry): Path {
    e.dir + [e.name]
  }

  /** `dirs[:] = [d for d in dirs if d not in excluded]` inside a walk from
      `root` means that a file is never reached when one of the directories
      between `root` and the file is named in `excluded`. */
  predicate Pruned(root: Path, e: WalkEntry, excluded: set<string>) {
    exists i :: |root| <= i < |e.dir| && e.dir[i] in excluded
  }

  /** The files of a walk that survive the pruning and the acceptance test, in walk order. */
  function Kept(walk: seq<WalkEntry>, root: Path, excluded: set<string>, accept: WalkEntry -> bool): (r: seq<WalkEntry>)
    ensures |r| <= |walk|
  {
    if walk == [] then []
    else
      var e := walk[|walk| - 1];
      Kept(walk[..|walk| - 1], root, excluded, accept)
        + (if !Pruned(root, e, excluded) && accept(e) then [e] else [])
  }

  /** A file is kept exactly when it is listed, not pruned and accepted. */
  lemma {:induction false} KeptMembers(walk: seq<WalkEntry>, root: Path, excluded: set<string>, accept: WalkEntry -> bool)
    ensures forall e :: e in Kept(walk, root, excluded, accept) <==> e in walk && !Pruned(root, e, excluded) && accept(e)
  {
    if walk != [] {
      var init := walk[..|walk| - 1];
      KeptMembers(init, root, excluded, accept);
      assert walk == init + [walk[|walk| - 1]];
    }
  }

  /** A full path names one listed file. */
  lemma FullPathInjective(a: WalkEntry, b: WalkEntry)
    requires FullPath(a) == FullPath(b)
    ensures a == b
  {
    assert a.dir == FullPath(a)[..|a.dir|];
    assert b.dir == FullPath(b)[..|b.dir|];
  }

  /** A file's path is among the paths of some files exactly when the file is among them. */
  lemma FullPathIn(xs: seq<WalkEntry>, e: WalkEntry)
    ensures FullPath(e) in Map(xs, FullPath) <==> e in xs
  {
    if FullPath(e) in Map(xs, FullPath) {
      var i :| 0 <= i < |xs| && Map(xs, FullPath)[i] == FullPath(e);
      FullPathInjective(xs[i], e);
    }
    if e in xs {
      var i :| 0 <= i < |xs| && xs[i] == e;
      assert Map(xs, FullPath)[i] == FullPath(e);
    }
  }

  /** A listed file's path is among the kept paths exactly when it is neither pruned nor refused. */
  lemma KeptPaths(walk: seq<WalkEntry>, root: Path, excluded: set<string>, accept: WalkEntry -> bool, e: WalkEntry)
    requires e in walk
    ensures FullPath(e) in Map(Kept(walk, root, excluded, accept), FullPath) <==> !Pruned(root, e, excluded) && accept(e)
  {
    KeptMembers(walk, root, excluded, accept);
    FullPathIn(Kept(walk, root, excluded, accept), e);
  }

  /** The walk loop: visit every listed file in order and keep the selected ones. */
  method Traverse(walk: seq<WalkEntry>, root: Path, excluded: set<string>, accept: WalkEntry -> bool)
    returns (kept: seq<WalkEntry>)
    ensures kept == Kept(walk, root, excluded, accept)
  {
    kept := [];
    var i := 0;
    while i < |walk|
      invariant 0 <= i <= |walk|
      invariant kept == Kept(walk[..i], root, excluded, accept)
    {
      var e := walk[i];
      assert walk[..i + 1][..i] == walk[..i];
      if !Pruned(root, e, excluded) && accept(e) {
        kept := kept + [e];
      }
      i := i + 1;
    }
    assert walk[..|walk|] == walk;
  }

  /** `os.path.join(to, os.path.relpath(f, start))`: the place of `f` in a mirror of `start` at `to`. */
  function Mirror(f: Path, start: Path, to: Path): (r: Path)
    ensures IsPrefix(to, r) && |r| > |to|
    ensures IsPrefix(start, f) && |f| > |start| ==> r == to + f[|start|..]
  {
    var r := to + RelPath(f, start);
    assert r[..|to|] == to;
    if IsPrefix(start, f) && |f| > |start| then RelPathBelow(f, start); r else r
  }

  /** Two files below `start` never share a mirrored place. */
  lemma MirrorInjective(f: Path, g: Path, start: Path, to: Path)
    requires IsPrefix(start, f) && |f| > |start|
    requires IsPrefix(start, g) && |g| > |start|
    requires Mirror(f, start, to) == Mirror(g, start, to)
    ensures f == g
  {
    assert f[|start|..] == Mirror(f, start, to)[|to|..];
    assert g[|start|..] == Mirror(g, start, to)[|to|..];
    assert f == f[..|start|] + f[|start|..];
    assert g == g[..|start|] + g[|start|..];
  }
}
