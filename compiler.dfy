/** `Comp-Package_py.py` and its near-copy `Compile.Python.py`: a project is
    compiled module by module with Cython and packaged with PyInstaller. A
    `ProjectCompiler` fixes the project, its build, dist and temp directories
    and the platform's compiler settings; the rest derives file lists and
    destination paths from a listing of the project. */
module Compiler {
  import opened Wrappers
  import opened Strings
  import opened Paths
  import opened Config
  import opened Sequences

  // ---------------------------------------------------------------------------
  // Configuration

  /** `CompilerConfig.DEFAULT_CONFIG` of `Comp-Package_py.py`. */
  const PackageDefaults: Table := [
    Section("General", [
      Entry("clean_temp", "true"),
      Entry("compiler_path", ""),
      Entry("confirm_before_compile", "true")]),
    Section("Cython", [
      Entry("compiler", "auto"),
      Entry("optimization_level", "-O2"),
      Entry("language_level", "3"),
      Entry("unix_compiler", "gcc"),
      Entry("windows_compiler", "msvc")]),
    Section("PyInstaller", [
      Entry("console", "true"),
      Entry("one_file", "false"),
      Entry("icon_path", ""),
      Entry("additional_data", "")])
  ]

  /** The same table in `Compile.Python.py`, which differs in one value only:
      it builds a single file by default. */
  const BuildDefaults: Table :=
    PackageDefaults[2 := Section("PyInstaller", PackageDefaults[2].entries[1 := Entry("one_file", "true")])]

  /** The keys the compiler settings read from the `Cython` section. */
  predicate CythonKeysPresent(sec: seq<Entry>) {
    Get(sec, "optimization_level").Some? && Get(sec, "windows_compiler").Some? && Get(sec, "unix_compiler").Some?
  }

  /** A table the compiler settings can be read from. */
  predicate SettingsReady(t: Table) {
    && SectionOf(t, "Cython").Some? && SectionOf(t, "General").Some?
    && CythonKeysPresent(Entries(t, "Cython")) && Get(Entries(t, "General"), "compiler_path").Some?
  }

  /** The override keeps a table ready. */
  lemma ReadyOverridden(t: Table, args: map<string, Option<string>>)
    requires SettingsReady(t)
    ensures SettingsReady(Overridden(t, args))
  {
    var u := Overridden(t, args);
    OverrideKeepsKeys(t, args, "Cython");
    OverrideKeepsKeys(t, args, "General");
    KeptAt(Entries(t, "Cython"), Entries(u, "Cython"), ["optimization_level", "windows_compiler", "unix_compiler"]);
    KeptAt(Entries(t, "General"), Entries(u, "General"), ["compiler_path"]);
  }

  lemma CythonKeysAt(e: seq<Entry>)
    requires |e| == 5
    requires e[1].key == "optimization_level" && e[3].key == "unix_compiler" && e[4].key == "windows_compiler"
    ensures CythonKeysPresent(e)
  {
    GetAt(e, 1, "optimization_level");
    GetAt(e, 3, "unix_compiler");
    GetAt(e, 4, "windows_compiler");
  }

  lemma ReadyOf(t: Table)
    requires |t| == 3 && t[0].name == "General" && t[1].name == "Cython"
    requires |t[0].entries| == 3 && t[0].entries[1].key == "compiler_path"
    requires CythonKeysPresent(t[1].entries)
    ensures SettingsReady(t)
  {
    GetAt(t[0].entries, 1, "compiler_path");
    assert SectionOf(t, "General") == Some(t[0].entries);
    assert SectionOf(t, "Cython") == Some(t[1].entries);
  }

  /** Both drivers' defaults are well formed and ready, and so is every override of them. */
  lemma DefaultsReady(args: map<string, Option<string>>)
    ensures WellFormed(PackageDefaults) && SettingsReady(PackageDefaults)
    ensures WellFormed(BuildDefaults) && SettingsReady(BuildDefaults)
    ensures SettingsReady(Overridden(PackageDefaults, args)) && SettingsReady(Overridden(BuildDefaults, args))
  {
    PackageWellFormed();
    BuildWellFormed();
    CythonKeysAt(PackageDefaults[1].entries);
    ReadyOf(PackageDefaults);
    ReadyOf(BuildDefaults);
    ReadyOverridden(PackageDefaults, args);
    ReadyOverridden(BuildDefaults, args);
  }

  lemma PackageWellFormed()
    ensures WellFormed(PackageDefaults)
  {
    GeneralKeysDistinct();
    CythonKeysDistinct();
    PyInstallerKeysDistinct();
  }

  lemma GeneralKeysDistinct()
    ensures UniqueKeys(PackageDefaults[0].entries)
  {
    assert KeyList(PackageDefaults[0].entries) == ["clean_temp", "compiler_path", "confirm_before_compile"];
  }

  lemma CythonKeysDistinct()
    ensures UniqueKeys(PackageDefaults[1].entries)
  {
    assert KeyList(PackageDefaults[1].entries) ==
      ["compiler", "optimization_level", "language_level", "unix_compiler", "windows_compiler"];
  }

  lemma PyInstallerKeysDistinct()
    ensures UniqueKeys(PackageDefaults[2].entries)
  {
    assert KeyList(PackageDefaults[2].entries) == ["console", "one_file", "icon_path", "additional_data"];
  }

  lemma BuildWellFormed()
    ensures WellFormed(BuildDefaults)
  {
    PackageWellFormed();
    assert KeyList(BuildDefaults[2].entries) == KeyList(PackageDefaults[2].entries);
  }

  // ---------------------------------------------------------------------------
  // The compiler object

  /** `compiler_settings`: the extra compile arguments, the compiler, and the
      `compiler_path` entry when there is one. */
  datatype CompilerSettings = CompilerSettings(extraCompileArgs: seq<string>, compiler: string, compilerPath: Option<string>)

  /** What `_get_platform_compiler_settings` promises for `platform`. */
  predicate SettingsSpec(config: Table, platform: string, s: CompilerSettings)
    requires SettingsReady(config)
  {
    var cython := Entries(config, "Cython");
    var opt := Value(cython, "optimization_level");
    var path := Value(Entries(config, "General"), "compiler_path");
    && (platform == "linux" ==> s.extraCompileArgs == [opt, "-fPIC"])
    && (platform == "darwin" ==> s.extraCompileArgs == [opt, "-Wno-unused-function"])
    && (platform != "linux" && platform != "darwin" ==> s.extraCompileArgs == [opt])
    && (platform == "windows" ==> s.compiler == Value(cython, "windows_compiler"))
    && (platform != "windows" ==> s.compiler == Value(cython, "unix_compiler"))
    && (path != "" ==> s.compilerPath == Some(path))
    && (path == "" ==> s.compilerPath == None)
  }

  /** The promise fixes the settings. */
  lemma SettingsDetermined(config: Table, platform: string, s: CompilerSettings, s': CompilerSettings)
    requires SettingsReady(config)
    requires SettingsSpec(config, platform, s) && SettingsSpec(config, platform, s')
    ensures s == s'
  {
  }

  /** The optimisation level always comes first; `-fPIC` follows it exactly on
      linux and `-Wno-unused-function` exactly on darwin. */
  lemma SettingsArguments(config: Table, platform: string, s: CompilerSettings)
    requires SettingsReady(config) && SettingsSpec(config, platform, s)
    ensures |s.extraCompileArgs| >= 1
    ensures s.extraCompileArgs[0] == Value(Entries(config, "Cython"), "optimization_level")
    ensures "-fPIC" in s.extraCompileArgs[1..] <==> platform == "linux"
    ensures "-Wno-unused-function" in s.extraCompileArgs[1..] <==> platform == "darwin"
  {
    if platform == "linux" {
      assert s.extraCompileArgs[1..] == ["-fPIC"];
    } else if platform == "darwin" {
      assert s.extraCompileArgs[1..] == ["-Wno-unused-function"];
    } else {
      assert s.extraCompileArgs[1..] == [];
    }
  }

  /** `_get_platform_compiler_settings`: the dictionary is built step by step. */
  method PlatformCompilerSettings(config: Table, platform: string) returns (s: CompilerSettings)
    requires SettingsReady(config)
    ensures SettingsSpec(config, platform, s)
  {
    var cython := Entries(config, "Cython");
    var general := Entries(config, "General");
    var args := [Value(cython, "optimization_level")];
    var compiler;
    if platform == "windows" {
      compiler := Value(cython, "windows_compiler");
    } else {
      compiler := Value(cython, "unix_compiler");
    }
    var path := None;
    if Value(general, "compiler_path") != "" {
      path := Some(Value(general, "compiler_path"));
    }
    if platform == "linux" {
      args := args + ["-fPIC"];
    } else if platform == "darwin" {
      args := args + ["-Wno-unused-function"];
    }
    s := CompilerSettings(args, compiler, path);
  }

  /** A `ProjectCompiler` after `__init__`. */
  datatype ProjectCompiler = ProjectCompiler(
    projectPath: Path,    // os.path.abspath(project_path)
    mainFile: string,     // the entry file as given
    projectName: string,
    buildDir: Path,
    distDir: Path,
    tempDir: Path,
    config: Table,
    platform: string,     // platform.system().lower()
    settings: CompilerSettings)

  /** `ProjectCompiler.__init__`: the existence test on the path as given (the
      file system's answer is `present`), the `.py` test on the entry file, the
      three working directories named after the project, and the settings for
      the platform `system` reports. */
  method NewProjectCompiler(projectPath: string, mainFile: string, config: Table,
                            present: bool, cwd: Path, system: string) returns (r: Result<ProjectCompiler>)
    requires Normal(cwd) && SettingsReady(config)
    ensures !present ==> r == Err(ProjectPathMissing(projectPath))
    ensures present && !EndsWith(mainFile, ".py") ==> r == Err(MainFileNotPython(mainFile))
    ensures r.Ok? <==> present && EndsWith(mainFile, ".py")
    ensures r.Ok? ==> r.value.projectPath == AbsPath(projectPath, cwd) && r.value.mainFile == mainFile
    ensures r.Ok? ==> r.value.projectName == ProjectName(r.value.projectPath)
    ensures r.Ok? ==> var c := r.value;
      && c.buildDir == c.projectPath + ["build", c.projectName]
      && c.distDir == c.projectPath + ["dist", c.projectName]
      && c.tempDir == c.projectPath + ["temp", c.projectName]
    ensures r.Ok? ==> r.value.config == config && r.value.platform == Lower(system)
    ensures r.Ok? ==> SettingsSpec(config, r.value.platform, r.value.settings)
  {
    if !present {
      return Err(ProjectPathMissing(projectPath));
    }
    if !EndsWith(mainFile, ".py") {
      return Err(MainFileNotPython(mainFile));
    }
    var abs := AbsPath(projectPath, cwd);
    var name := ProjectName(abs);
    var platform := Lower(system);
    var settings := PlatformCompilerSettings(config, platform);
    r := Ok(ProjectCompiler(abs, mainFile, name, abs + ["build", name], abs + ["dist", name],
                            abs + ["temp", name], config, platform, settings));
  }

  /** The three working directories lie side by side one level below the
      project, all named after the project's own directory. */
  lemma WorkDirsPerProject(c: ProjectCompiler)
    requires Normal(c.projectPath) && |c.projectPath| >= 2 && c.projectName == ProjectName(c.projectPath)
    requires c.buildDir == c.projectPath + ["build", c.projectName]
    requires c.distDir == c.projectPath + ["dist", c.projectName]
    requires c.tempDir == c.projectPath + ["temp", c.projectName]
    ensures c.projectName == Name(c.projectPath) && Plain(c.projectName)
    ensures Normal(c.buildDir) && Normal(c.distDir) && Normal(c.tempDir)
    ensures Parent(Parent(c.tempDir)) == c.projectPath && Name(c.tempDir) == c.projectName
    ensures c.buildDir != c.distDir && c.distDir != c.tempDir && c.buildDir != c.tempDir
  {
    assert c.projectPath[|c.projectPath| - 1] == Name(c.projectPath);
    assert Parent(c.tempDir) == c.projectPath + ["temp"];
    assert c.buildDir[|c.projectPath|] == "build" && c.distDir[|c.projectPath|] == "dist";
    assert c.tempDir[|c.projectPath|] == "temp";
  }

  // ---------------------------------------------------------------------------
  // Python sources and their Cython copies

  /** The path `collect_python_files` leaves out: the entry file. */
  function MainPath(c: ProjectCompiler): Path {
    JoinPath(c.projectPath, c.mainFile)
  }

  /** The name test of `collect_python_files`. */
  predicate IsPythonSource(name: string) {
    EndsWith(name, ".py") && !StartsWith(name, "__")
  }

  /** A listed file that `collect_python_files` picks. */
  predicate PicksSource(c: ProjectCompiler, e: WalkEntry) {
    IsPythonSource(e.name) && FullPath(e) != MainPath(c)
  }

  /** `collect_python_files` over the listing `walk` of the project. */
  method CollectPythonFiles(c: ProjectCompiler, walk: seq<WalkEntry>) returns (files: set<Path>)
    ensures forall p :: p in files <==> exists j :: 0 <= j < |walk| && PicksSource(c, walk[j]) && FullPath(walk[j]) == p
  {
    files := {};
    var i := 0;
    while i < |walk|
      invariant 0 <= i <= |walk|
      invariant forall p :: p in files <==> exists j :: 0 <= j < i && PicksSource(c, walk[j]) && FullPath(walk[j]) == p
    {
      var e := walk[i];
      if IsPythonSource(e.name) {
        var p := FullPath(e);
        if p != MainPath(c) {
          files := files + {p};
        }
      }
      i := i + 1;
    }
  }

  /** A picked file's name ends in `.py`, does not start with `__`, and the file is not the entry file. */
  lemma PickedSources(c: ProjectCompiler, e: WalkEntry)
    requires PicksSource(c, e)
    ensures |e.name| >= 3 && e.name[|e.name| - 3..] == ".py"
    ensures !(|e.name| >= 2 && e.name[..2] == "__")
    ensures FullPath(e) != MainPath(c)
  {
  }

  /** `os.path.splitext(p)[0]` on a path: only its last component loses its extension. */
  function StripExt(p: Path): (r: Path)
    requires p != []
    ensures |r| == |p| && Parent(r) == Parent(p)
  {
    Parent(p) + [SplitExt(Name(p)).0]
  }

  /** The place of a Python file's Cython copy:
      `temp_dir/<relative path without extension>.pyx`. */
  function PyxPath(c: ProjectCompiler, f: Path): (r: Path)
    ensures IsPrefix(c.tempDir, r) && |r| > |c.tempDir|
  {
    var s := StripExt(RelPath(f, c.projectPath));
    var r := c.tempDir + Parent(s) + [Name(s) + ".pyx"];
    assert r[..|c.tempDir|] == c.tempDir;
    r
  }

  /** `PyxPath` for the compiler `c`, as a function of the file alone. */
  function PyxOf(c: ProjectCompiler): Path -> Path {
    f => PyxPath(c, f)
  }

  /** `create_cython_files`: one `.pyx` path per Python file, in the order the
      files are given (the source iterates a set, in no fixed order). */
  method CreateCythonFiles(c: ProjectCompiler, pythonFiles: seq<Path>) returns (cythonFiles: seq<Path>)
    ensures |cythonFiles| == |pythonFiles|
    ensures forall i :: 0 <= i < |pythonFiles| ==> cythonFiles[i] == PyxPath(c, pythonFiles[i])
  {
    cythonFiles := [];
    for i := 0 to |pythonFiles|
      invariant cythonFiles == Map(pythonFiles[..i], PyxOf(c))
    {
      MapSnoc(pythonFiles, i, PyxOf(c));
      cythonFiles := cythonFiles + [PyxPath(c, pythonFiles[i])];
    }
    assert pythonFiles[..|pythonFiles|] == pythonFiles;
  }

  /** The module name `build_extensions` gives a Cython file: its path below
      `temp_dir` without extension, components joined with `.`. */
  function ModuleName(c: ProjectCompiler, pyx: Path): string {
    Join(".", StripExt(RelPath(pyx, c.tempDir)))
  }

  /** A source file `dir/stem.py` below the project. */
  predicate SourceBelow(c: ProjectCompiler, f: Path, stem: string) {
    && IsPrefix(c.projectPath, f) && |f| > |c.projectPath|
    && Name(f) == stem + ".py" && HasNonDot(stem)
  }

  /** The Cython copy of `dir/stem.py` is `temp_dir/dir/stem.pyx`. */
  lemma PyxOfSource(c: ProjectCompiler, f: Path, stem: string)
    requires SourceBelow(c, f, stem)
    ensures PyxPath(c, f) == c.tempDir + Parent(f)[|c.projectPath|..] + [stem + ".pyx"]
  {
    var rel := f[|c.projectPath|..];
    RelPathBelow(f, c.projectPath);
    assert Name(rel) == Name(f);
    StripPy(rel, stem);
    assert Parent(rel) == Parent(f)[|c.projectPath|..];
  }

  /** Stripping the extension of `dir/stem.py` leaves `dir/stem`. */
  lemma StripPy(rel: Path, stem: string)
    requires rel != [] && Name(rel) == stem + ".py" && HasNonDot(stem)
    ensures Parent(StripExt(rel)) == Parent(rel) && Name(StripExt(rel)) == stem
  {
    SplitExtOfStem(stem, ".py");
  }

  /** The module built from `dir/stem.py` is named after `dir` and `stem`,
      joined with dots: the `.pyx` detour round-trips. */
  lemma ModuleOfSource(c: ProjectCompiler, f: Path, stem: string)
    requires SourceBelow(c, f, stem)
    ensures ModuleName(c, PyxPath(c, f)) == Join(".", Parent(f)[|c.projectPath|..] + [stem])
  {
    var dir := Parent(f)[|c.projectPath|..];
    var q := dir + [stem + ".pyx"];
    PyxOfSource(c, f, stem);
    assert PyxPath(c, f) == c.tempDir + q;
    RelPathOfAppended(c.tempDir, q);
    StripPyx(dir, stem);
    calc {
      ModuleName(c, PyxPath(c, f));
      Join(".", StripExt(RelPath(c.tempDir + q, c.tempDir)));
      Join(".", StripExt(q));
      Join(".", dir + [stem]);
    }
  }

  lemma RelPathOfAppended(t: Path, q: Path)
    requires q != []
    ensures RelPath(t + q, t) == q
  {
    RelPathBelow(t + q, t);
    assert (t + q)[|t|..] == q;
  }

  lemma StripPyx(dir: Path, stem: string)
    requires HasNonDot(stem)
    ensures StripExt(dir + [stem + ".pyx"]) == dir + [stem]
  {
    SplitExtOfStem(stem, ".pyx");
    assert Parent(dir + [stem + ".pyx"]) == dir;
  }

  /** Different source files get different Cython copies. */
  lemma PyxInjective(c: ProjectCompiler, f: Path, sf: string, g: Path, sg: string)
    requires SourceBelow(c, f, sf) && SourceBelow(c, g, sg)
    requires PyxPath(c, f) == PyxPath(c, g)
    ensures f == g
  {
    var n := |c.projectPath|;
    PyxOfSource(c, f, sf);
    PyxOfSource(c, g, sg);
    LastPieceInjective(c.tempDir, Parent(f)[n..], sf, Parent(g)[n..], sg, ".pyx");
    SourceParts(c.projectPath, f, sf);
    SourceParts(c.projectPath, g, sg);
  }

  /** `t + d + [s + x]` determines `d` and `s`. */
  lemma LastPieceInjective(t: Path, d: Path, s: string, d': Path, s': string, x: string)
    requires t + d + [s + x] == t + d' + [s' + x]
    ensures d == d' && s == s'
  {
    var p, p' := t + d + [s + x], t + d' + [s' + x];
    assert |d| == |d'|;
    assert d == p[|t|..|p| - 1] && d' == p'[|t|..|p'| - 1];
    assert s == (s + x)[..|s|] && s' == (s' + x)[..|s'|];
  }

  /** A file below `project` is the project, the directory below it, and its name. */
  lemma SourceParts(project: Path, f: Path, stem: string)
    requires IsPrefix(project, f) && |f| > |project| && Name(f) == stem + ".py"
    ensures f == project + Parent(f)[|project|..] + [stem + ".py"]
  {
    assert f == Parent(f) + [Name(f)];
    assert Parent(f) == project + Parent(f)[|project|..];
  }

  // ---------------------------------------------------------------------------
  // Resources and binaries for the PyInstaller spec

  /** The directories `collect_resource_files` does not descend into. */
  const ResourceExcludedDirs: set<string> := {"build", "dist", "temp", "__pycache__", ".git", ".svn"}

  /** The extensions `collect_resource_files` leaves out. */
  const ExcludedExtensions: set<string> := {".py", ".pyc", ".pyo", ".pyd", ".so"}

  predicate IsResource(e: WalkEntry) {
    SplitExt(e.name).1 !in ExcludedExtensions
  }

  /** `(abs_path, rel_path)` for a listed file. */
  function ResourcePair(c: ProjectCompiler, e: WalkEntry): (Path, Path) {
    (FullPath(e), RelPath(FullPath(e), c.projectPath))
  }

  function ResourcePairs(c: ProjectCompiler, es: seq<WalkEntry>): (r: seq<(Path, Path)>)
    ensures |r| == |es|
    ensures forall i :: 0 <= i < |es| ==> r[i] == ResourcePair(c, es[i])
  {
    seq(|es|, i requires 0 <= i < |es| => ResourcePair(c, es[i]))
  }

  /** `collect_resource_files` over the listing `walk` of the project. */
  method CollectResourceFiles(c: ProjectCompiler, walk: seq<WalkEntry>) returns (res: seq<(Path, Path)>)
    ensures res == ResourcePairs(c, Kept(walk, c.projectPath, ResourceExcludedDirs, IsResource))
  {
    var kept := Traverse(walk, c.projectPath, ResourceExcludedDirs, IsResource);
    res := ResourcePairs(c, kept);
  }

  /** A listed file is a resource exactly when no excluded directory lies
      between the project and the file and its extension is not excluded; the
      second path of a resource is the first one relative to the project. */
  lemma ResourcesSelected(c: ProjectCompiler, walk: seq<WalkEntry>, e: WalkEntry)
    requires e in walk
    ensures var kept := Kept(walk, c.projectPath, ResourceExcludedDirs, IsResource);
      ResourcePair(c, e) in ResourcePairs(c, kept) <==>
        !Pruned(c.projectPath, e, ResourceExcludedDirs) && SplitExt(e.name).1 !in ExcludedExtensions
  {
    var kept := Kept(walk, c.projectPath, ResourceExcludedDirs, IsResource);
    KeptMembers(walk, c.projectPath, ResourceExcludedDirs, IsResource);
    if ResourcePair(c, e) in ResourcePairs(c, kept) {
      var i :| 0 <= i < |kept| && ResourcePairs(c, kept)[i] == ResourcePair(c, e);
      assert FullPath(kept[i]) == FullPath(e);
      assert kept[i] == e by {
        assert kept[i].dir == FullPath(kept[i])[..|kept[i].dir|];
        assert e.dir == FullPath(e)[..|e.dir|];
        assert |kept[i].dir| == |e.dir|;
      }
    }
  }

  /** A file below the project is paired with its path below the project. */
  lemma ResourceRelative(c: ProjectCompiler, e: WalkEntry)
    requires IsPrefix(c.projectPath, FullPath(e)) && |FullPath(e)| > |c.projectPath|
    ensures ResourcePair(c, e).1 == FullPath(e)[|c.projectPath|..]
  {
    RelPathBelow(FullPath(e), c.projectPath);
  }

  /** `os.path.dirname(rel) or '.'`: the PyInstaller destination of a file at `rel`. */
  function DestDir(rel: Path): Path {
    if Parent(rel) == [] then ["."] else Parent(rel)
  }

  /** The destination of a file below the project is its directory below the
      project, or `.` for a file in the project's own directory. */
  lemma DestDirBelow(project: Path, f: Path)
    requires IsPrefix(project, f) && |f| > |project|
    ensures |f| == |project| + 1 ==> DestDir(RelPath(f, project)) == ["."]
    ensures |f| > |project| + 1 ==> project + DestDir(RelPath(f, project)) == Parent(f)
  {
    RelPathBelow(f, project);
    var rel := f[|project|..];
    if |f| > |project| + 1 {
      assert Parent(rel) == Parent(f)[|project|..];
      assert Parent(f) == project + Parent(f)[|project|..];
    }
  }

  /** The `datas` list of the spec: each resource with the directory of its
      relative path as destination. */
  function Datas(res: seq<(Path, Path)>): (d: seq<(Path, Path)>)
    ensures |d| == |res|
    ensures forall i :: 0 <= i < |res| ==> d[i] == (res[i].0, DestDir(res[i].1))
  {
    seq(|res|, i requires 0 <= i < |res| => (res[i].0, DestDir(res[i].1)))
  }

  /** The name test of the `binaries` walk. */
  predicate IsCompiled(e: WalkEntry) {
    EndsWith(e.name, ".pyd") || EndsWith(e.name, ".so")
  }

  /** `(file_path, rel_dir or '.')` for a compiled module. */
  function BinaryPair(c: ProjectCompiler, e: WalkEntry): (Path, Path) {
    (FullPath(e), DestDir(RelPath(FullPath(e), c.projectPath)))
  }

  function BinaryPairs(c: ProjectCompiler, es: seq<WalkEntry>): (r: seq<(Path, Path)>)
    ensures |r| == |es|
    ensures forall i :: 0 <= i < |es| ==> r[i] == BinaryPair(c, es[i])
  {
    seq(|es|, i requires 0 <= i < |es| => BinaryPair(c, es[i]))
  }

  /** The `binaries` loop of `create_pyinstaller_spec`: every compiled module
      of the project, nothing pruned. */
  method CollectBinaries(c: ProjectCompiler, walk: seq<WalkEntry>) returns (bins: seq<(Path, Path)>)
    ensures bins == BinaryPairs(c, Kept(walk, c.projectPath, {}, IsCompiled))
  {
    var kept := Traverse(walk, c.projectPath, {}, IsCompiled);
    bins := BinaryPairs(c, kept);
  }

  /** Without excluded directories nothing is pruned: every compiled module listed is kept. */
  lemma BinariesComplete(c: ProjectCompiler, walk: seq<WalkEntry>)
    ensures forall e :: e in Kept(walk, c.projectPath, {}, IsCompiled) <==> e in walk && IsCompiled(e)
  {
    KeptMembers(walk, c.projectPath, {}, IsCompiled);
  }
}
