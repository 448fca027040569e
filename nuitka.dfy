/** `Nuitka_py.py`: the Nuitka driver. A `NuitkaCompiler` fixes the project and
    its output directory; `build_nuitka_command` turns the `Nuitka` section of
    the configuration into one command line. */
module Nuitka {
  import opened Wrappers
  import opened Strings
  import opened Paths
  import opened Config
  import opened Sequences

  /** `NuitkaConfig.DEFAULT_CONFIG`. */
  const NuitkaDefaults: Table := [
    Section("General", [
      Entry("clean_temp", "true"),
      Entry("confirm_before_compile", "true")]),
    Section("Nuitka", [
      Entry("standalone", "true"),
      Entry("onefile", "false"),
      Entry("windows_icon", ""),
      Entry("company_name", ""),
      Entry("product_name", ""),
      Entry("file_version", ""),
      Entry("show_progress", "true"),
      Entry("show_memory", "false"),
      Entry("jobs", "auto"),
      Entry("lto", "auto"),
      Entry("windows_console_mode", "force"),
      Entry("follow_imports", "true"),
      Entry("include_package_data", ""),
      Entry("include_data_files", ""),
      Entry("noinclude_dlls", ""),
      Entry("prefer_source_code", "true"),
      Entry("python_flag", ""),
      Entry("remove_output", "false"),
      Entry("unstripped", "false"),
      Entry("low_memory", "false"),
      Entry("disable_console", "false"),
      Entry("file_description", ""),
      Entry("copyright", ""),
      Entry("trademarks", ""),
      Entry("output_dir", ""),
      Entry("module_name_choice", "original")])
  ]

  /** The section holds every key the builder reads. */
  predicate SectionReady(sec: seq<Entry>) {
    HeadKeysPresent(sec) && VersionKeysPresent(sec) && TailKeysPresent(sec)
  }

  /** The keys read before the version information. */
  predicate HeadKeysPresent(sec: seq<Entry>) {
    && Get(sec, "standalone").Some? && Get(sec, "onefile").Some? && Get(sec, "show_progress").Some?
    && Get(sec, "show_memory").Some? && Get(sec, "output_dir").Some? && Get(sec, "module_name_choice").Some?
    && Get(sec, "windows_icon").Some? && Get(sec, "windows_console_mode").Some?
  }

  /** The version-information keys. */
  predicate VersionKeysPresent(sec: seq<Entry>) {
    && Get(sec, "company_name").Some? && Get(sec, "product_name").Some? && Get(sec, "file_version").Some?
    && Get(sec, "file_description").Some? && Get(sec, "copyright").Some? && Get(sec, "trademarks").Some?
  }

  /** The keys read after the version information. */
  predicate TailKeysPresent(sec: seq<Entry>) {
    && Get(sec, "include_package_data").Some? && Get(sec, "include_data_files").Some?
    && Get(sec, "noinclude_dlls").Some? && Get(sec, "jobs").Some? && Get(sec, "lto").Some?
    && Get(sec, "prefer_source_code").Some? && Get(sec, "remove_output").Some?
    && Get(sec, "unstripped").Some? && Get(sec, "low_memory").Some?
    && Get(sec, "python_flag").Some? && Get(sec, "follow_imports").Some?
  }

  /** A table the command can be built from: its `Nuitka` section holds every key read. */
  predicate Ready(t: Table) {
    SectionOf(t, "Nuitka").Some? && SectionReady(Entries(t, "Nuitka"))
  }

  /** The override keeps a table ready. */
  lemma ReadyOverridden(t: Table, args: map<string, Option<string>>)
    requires Ready(t)
    ensures Ready(Overridden(t, args))
  {
    OverrideKeepsKeys(t, args, "Nuitka");
    var s, s' := Entries(t, "Nuitka"), Entries(Overridden(t, args), "Nuitka");
    KeysKept(s, s');
  }

  /** A section holding every key another one holds is ready when that one is. */
  lemma KeysKept(s: seq<Entry>, s': seq<Entry>)
    requires forall k :: Get(s, k).Some? ==> Get(s', k).Some?
    ensures SectionReady(s) ==> SectionReady(s')
  {
    HeadKeysKept(s, s');
    VersionKeysKept(s, s');
    TailKeysKept(s, s');
  }

  lemma HeadKeysKept(s: seq<Entry>, s': seq<Entry>)
    requires forall k :: Get(s, k).Some? ==> Get(s', k).Some?
    ensures HeadKeysPresent(s) ==> HeadKeysPresent(s')
  {
    KeptAt(s, s', ["standalone", "onefile", "show_progress", "show_memory",
                   "output_dir", "module_name_choice", "windows_icon", "windows_console_mode"]);
  }

  lemma VersionKeysKept(s: seq<Entry>, s': seq<Entry>)
    requires forall k :: Get(s, k).Some? ==> Get(s', k).Some?
    ensures VersionKeysPresent(s) ==> VersionKeysPresent(s')
  {
    KeptAt(s, s', ["company_name", "product_name", "file_version", "file_description", "copyright", "trademarks"]);
  }

  lemma TailKeysKept(s: seq<Entry>, s': seq<Entry>)
    requires forall k :: Get(s, k).Some? ==> Get(s', k).Some?
    ensures TailKeysPresent(s) ==> TailKeysPresent(s')
  {
    KeptAt(s, s', ["include_package_data", "include_data_files", "noinclude_dlls", "jobs", "lto",
                   "prefer_source_code", "remove_output", "unstripped", "low_memory", "python_flag",
                   "follow_imports"]);
  }


  /** The defaults are well formed and ready, and so is every override of them. */
  lemma DefaultsReady(args: map<string, Option<string>>)
    ensures WellFormed(NuitkaDefaults) && Ready(NuitkaDefaults)
    ensures Ready(Overridden(NuitkaDefaults, args))
  {
    DefaultsWellFormed();
    DefaultsHaveKeys();
    ReadyOverridden(NuitkaDefaults, args);
  }

  /** The keys of the `Nuitka` section of the defaults, in order. */
  const NuitkaDefaultKeys: seq<string> := [
    "standalone", "onefile", "windows_icon", "company_name", "product_name", "file_version",
    "show_progress", "show_memory", "jobs", "lto", "windows_console_mode", "follow_imports",
    "include_package_data", "include_data_files", "noinclude_dlls", "prefer_source_code",
    "python_flag", "remove_output", "unstripped", "low_memory", "disable_console",
    "file_description", "copyright", "trademarks", "output_dir", "module_name_choice"]

  lemma DefaultKeyList()
    ensures KeyList(NuitkaDefaults[1].entries) == NuitkaDefaultKeys
  {
  }

  lemma DefaultsWellFormed()
    ensures WellFormed(NuitkaDefaults)
  {
    DefaultKeysDistinct();
    DefaultKeyList();
    assert UniqueKeys(NuitkaDefaults[1].entries);
    assert KeyList(NuitkaDefaults[0].entries) == ["clean_temp", "confirm_before_compile"];
  }

  lemma DefaultKeysDistinct()
    ensures forall i, j :: 0 <= i < j < |NuitkaDefaultKeys| ==> NuitkaDefaultKeys[i] != NuitkaDefaultKeys[j]
  {
  }

  lemma DefaultsHaveKeys()
    ensures Ready(NuitkaDefaults)
  {
    DefaultSection();
    DefaultHeadKeys();
    DefaultVersionKeys();
    DefaultTailKeys();
    ReadyOf(NuitkaDefaults, NuitkaDefaults[1].entries);
  }

  lemma ReadyOf(t: Table, sec: seq<Entry>)
    requires SectionOf(t, "Nuitka") == Some(sec)
    requires HeadKeysPresent(sec) && VersionKeysPresent(sec) && TailKeysPresent(sec)
    ensures Ready(t)
  {
  }

  /** The `Nuitka` section of the defaults is their second section. */
  lemma DefaultSection()
    ensures SectionOf(NuitkaDefaults, "Nuitka") == Some(NuitkaDefaults[1].entries)
  {
  }

  lemma DefaultHeadKeys()
    ensures HeadKeysPresent(NuitkaDefaults[1].entries)
  {
    DefaultKeyList();
    HeadKeysAt(NuitkaDefaults[1].entries);
  }

  lemma HeadKeysAt(e: seq<Entry>)
    requires |e| == 26
    requires e[0].key == "standalone"
    requires e[1].key == "onefile"
    requires e[6].key == "show_progress"
    requires e[7].key == "show_memory"
    requires e[24].key == "output_dir"
    requires e[25].key == "module_name_choice"
    requires e[2].key == "windows_icon"
    requires e[10].key == "windows_console_mode"
    ensures HeadKeysPresent(e)
  {
    GetAt(e, 0, "standalone");
    GetAt(e, 1, "onefile");
    GetAt(e, 6, "show_progress");
    GetAt(e, 7, "show_memory");
    GetAt(e, 24, "output_dir");
    GetAt(e, 25, "module_name_choice");
    GetAt(e, 2, "windows_icon");
    GetAt(e, 10, "windows_console_mode");
  }

  lemma DefaultVersionKeys()
    ensures VersionKeysPresent(NuitkaDefaults[1].entries)
  {
    DefaultKeyList();
    VersionKeysAt(NuitkaDefaults[1].entries);
  }

  lemma VersionKeysAt(e: seq<Entry>)
    requires |e| == 26
    requires e[3].key == "company_name"
    requires e[4].key == "product_name"
    requires e[5].key == "file_version"
    requires e[21].key == "file_description"
    requires e[22].key == "copyright"
    requires e[23].key == "trademarks"
    ensures VersionKeysPresent(e)
  {
    GetAt(e, 3, "company_name");
    GetAt(e, 4, "product_name");
    GetAt(e, 5, "file_version");
    GetAt(e, 21, "file_description");
    GetAt(e, 22, "copyright");
    GetAt(e, 23, "trademarks");
  }

  lemma DefaultTailKeys()
    ensures TailKeysPresent(NuitkaDefaults[1].entries)
  {
    DefaultKeyList();
    TailKeysAt(NuitkaDefaults[1].entries);
  }

  lemma TailKeysAt(e: seq<Entry>)
    requires |e| == 26
    requires e[12].key == "include_package_data"
    requires e[13].key == "include_data_files"
    requires e[14].key == "noinclude_dlls"
    requires e[8].key == "jobs"
    requires e[9].key == "lto"
    requires e[15].key == "prefer_source_code"
    requires e[17].key == "remove_output"
    requires e[18].key == "unstripped"
    requires e[19].key == "low_memory"
    requires e[16].key == "python_flag"
    requires e[11].key == "follow_imports"
    ensures TailKeysPresent(e)
  {
    GetAt(e, 12, "include_package_data");
    GetAt(e, 13, "include_data_files");
    GetAt(e, 14, "noinclude_dlls");
    GetAt(e, 8, "jobs");
    GetAt(e, 9, "lto");
    GetAt(e, 15, "prefer_source_code");
    GetAt(e, 17, "remove_output");
    GetAt(e, 18, "unstripped");
    GetAt(e, 19, "low_memory");
    GetAt(e, 16, "python_flag");
    GetAt(e, 11, "follow_imports");
  }

  // ---------------------------------------------------------------------------
  // The compiler object

  datatype NuitkaCompiler = NuitkaCompiler(
    projectPath: Path,    // os.path.abspath(project_path)
    mainFile: string,     // the entry file as given
    projectName: string,
    distDir: Path,
    outputDir: Path,
    config: Table)

  /** `os.path.abspath(os.path.join(os.path.dirname(__file__), '..', 'dist'))`
      for the directory `scriptDir` that holds the driver. */
  function DistDir(scriptDir: Path): (r: Path)
    requires Normal(scriptDir)
    ensures Normal(r) && |r| >= 2 && Name(r) == "dist"
    ensures |scriptDir| >= 2 ==> r == Parent(scriptDir) + ["dist"]
    ensures |scriptDir| == 1 ==> r == scriptDir + ["dist"]
  {
    var r := [""] + Resolve(scriptDir[1..], ["..", "dist"]);
    assert Resolve(scriptDir[1..], ["..", "dist"]) == Resolve(if scriptDir[1..] == [] then [] else scriptDir[1..][..|scriptDir[1..]| - 1], ["dist"]);
    r
  }

  /** `NuitkaCompiler.__init__`: the existence test on the path as given (the
      file system's answer is `present`), the `.py` test on the entry file, and
      the output directory `dist/<project name>`. The project name is taken from
      the absolute path; see `OutputDirAsWritten` for the name the driver uses. */
  function NewNuitkaCompiler(projectPath: string, mainFile: string, config: Table,
                             present: bool, cwd: Path, scriptDir: Path): (r: Result<NuitkaCompiler>)
    requires Normal(cwd) && Normal(scriptDir)
    ensures !present ==> r == Err(ProjectPathMissing(projectPath))
    ensures present && !EndsWith(mainFile, ".py") ==> r == Err(MainFileNotPython(mainFile))
    ensures r.Ok? <==> present && EndsWith(mainFile, ".py")
    ensures r.Ok? ==> r.value.projectPath == AbsPath(projectPath, cwd) && r.value.mainFile == mainFile
    ensures r.Ok? ==> r.value.config == config && r.value.distDir == DistDir(scriptDir)
    ensures r.Ok? ==> r.value.projectName == ProjectName(r.value.projectPath)
    ensures r.Ok? ==> r.value.outputDir == r.value.distDir + [r.value.projectName]
  {
    if !present then Err(ProjectPathMissing(projectPath))
    else if !EndsWith(mainFile, ".py") then Err(MainFileNotPython(mainFile))
    else
      var abs := AbsPath(projectPath, cwd);
      var name := ProjectName(abs);
      var dist := DistDir(scriptDir);
      Ok(NuitkaCompiler(abs, mainFile, name, dist, dist + [name], config))
  }

  /** Unless the project is the file-system root, the output directory is a
      normalised directory one level below `dist`, named after the project's
      own directory. */
  lemma OutputDirPerProject(projectPath: string, mainFile: string, config: Table,
                            present: bool, cwd: Path, scriptDir: Path)
    requires Normal(cwd) && Normal(scriptDir)
    requires NewNuitkaCompiler(projectPath, mainFile, config, present, cwd, scriptDir).Ok?
    requires |AbsPath(projectPath, cwd)| >= 2
    ensures var c := NewNuitkaCompiler(projectPath, mainFile, config, present, cwd, scriptDir).value;
      && c.projectName == Name(c.projectPath) && Plain(c.projectName)
      && Normal(c.outputDir) && Parent(c.outputDir) == c.distDir
  {
    var c := NewNuitkaCompiler(projectPath, mainFile, config, present, cwd, scriptDir).value;
    assert c.projectPath[|c.projectPath| - 1] == Name(c.projectPath);
    assert Parent(c.outputDir) == c.distDir;
  }

  /** The output directory as the driver computes it: `Path(project_path).name`
      of the path as given, not of its absolute form. */
  function OutputDirAsWritten(projectPath: string, scriptDir: Path): (r: Path)
    requires Normal(scriptDir)
    ensures Parent(r) == DistDir(scriptDir)
  {
    var r := DistDir(scriptDir) + [PathlibName(projectPath)];
    assert Parent(r) == DistDir(scriptDir);
    r
  }

  /** `pathlib` names `.` with the empty text and `..` with `..`. */
  lemma PathlibNameOfDots()
    ensures PathlibName(".") == "" && PathlibName("..") == ".."
  {
    SplitWithout(".", '/');
    SplitWithout("..", '/');
    assert LastNamed(["."]) == LastNamed([]);
  }

  /** Run from the project directory as `.`, the driver's output directory is
      `dist/` itself; given `..`, it is `dist/..`, outside `dist`. */
  lemma OutputDirAsWrittenNotPerProject(scriptDir: Path)
    requires Normal(scriptDir)
    ensures OutputDirAsWritten(".", scriptDir) == DistDir(scriptDir) + [""]
    ensures OutputDirAsWritten("..", scriptDir) == DistDir(scriptDir) + [".."]
  {
    PathlibNameOfDots();
  }

  /** The corrected constructor names the output directory after the directory
      the project path denotes: `app` for `.` run in `/work/app`, and `work`
      for `..`. */
  lemma OutputDirOfDots(config: Table, scriptDir: Path)
    requires Normal(scriptDir)
    ensures NewNuitkaCompiler(".", "main.py", config, true, ["", "work", "app"], scriptDir).value.outputDir
      == DistDir(scriptDir) + ["app"]
    ensures NewNuitkaCompiler("..", "main.py", config, true, ["", "work", "app"], scriptDir).value.outputDir
      == DistDir(scriptDir) + ["work"]
  {
    SplitWithout(".", '/');
    SplitWithout("..", '/');
    assert AbsPath(".", ["", "work", "app"]) == ["", "work", "app"];
    assert AbsPath("..", ["", "work", "app"]) == ["", "work"];
  }

  // ---------------------------------------------------------------------------
  // Command-line parts and their option names

  /** `--<option>`. */
  function Switch(option: string): string {
    "--" + option
  }

  /** `--<option>=<v>`. */
  function Assign(option: string, v: string): string {
    "--" + option + "=" + v
  }

  /** `"<s>"`. */
  function Quote(s: string): string {
    "\"" + s + "\""
  }

  /** The text of `s` before its first `c`. */
  function Before(s: string, c: char): string {
    if s == [] || s[0] == c then [] else [s[0]] + Before(s[1..], c)
  }

  lemma {:induction false} BeforeOf(n: string, rest: string, c: char)
    requires c !in n && (rest == [] || rest[0] == c)
    ensures Before(n + rest, c) == n
  {
    if n != [] {
      assert (n + rest)[1..] == n[1..] + rest;
      BeforeOf(n[1..], rest, c);
    }
  }

  /** The option a command part sets: the text between a leading `--` and the
      first `=`; `""` for a part that is not an option. */
  function OptName(part: string): string {
    if |part| >= 2 && part[0] == '-' && part[1] == '-' then Before(part[2..], '=') else ""
  }

  lemma OptNameOfSwitch(option: string)
    requires '=' !in option
    ensures OptName(Switch(option)) == option
  {
    assert Switch(option)[2..] == option + "";
    BeforeOf(option, "", '=');
  }

  lemma OptNameOfAssign(option: string, v: string)
    requires '=' !in option
    ensures OptName(Assign(option, v)) == option
  {
    assert Assign(option, v)[2..] == option + ("=" + v);
    BeforeOf(option, "=" + v, '=');
  }

  /** The test "this part sets option `n`". */
  function Sets(n: string): string -> bool {
    p => OptName(p) == n
  }

  /** The parts of a command that set option `n`, in order. */
  function OptParts(parts: seq<string>, n: string): seq<string> {
    Filter(parts, Sets(n))
  }

  lemma OptPartsAppend(a: seq<string>, b: seq<string>, n: string)
    ensures OptParts(a + b, n) == OptParts(a, n) + OptParts(b, n)
  {
    FilterAppend(a, b, Sets(n));
  }

  /** A run of parts that all set option `m`. */
  lemma OptPartsUniform(ps: seq<string>, m: string, n: string)
    requires forall i :: 0 <= i < |ps| ==> OptName(ps[i]) == m
    ensures m == n ==> OptParts(ps, n) == ps
    ensures m != n ==> OptParts(ps, n) == []
  {
    FilterUniform(ps, Sets(n), m == n);
  }

  /** One step of the builder: the parts it may append, all for one option. */
  datatype Segment = Segment(option: string, parts: seq<string>)

  /** Every part of the segment sets the segment's option. */
  predicate SegTagged(s: Segment) {
    forall i :: 0 <= i < |s.parts| ==> OptName(s.parts[i]) == s.option
  }

  /** No two segments are for the same option, and every part of each sets its option. */
  predicate Separate(segs: seq<Segment>) {
    && (forall i, j :: 0 <= i < j < |segs| ==> segs[i].option != segs[j].option)
    && (forall j :: 0 <= j < |segs| ==> SegTagged(segs[j]))
  }

  /** The parts of the first `k` segments, in order. */
  function Concat(segs: seq<Segment>, k: nat): seq<string>
    requires k <= |segs|
  {
    if k == 0 then [] else Concat(segs, k - 1) + segs[k - 1].parts
  }

  /** The parts of each segment. */
  function PartsOf(segs: seq<Segment>): (q: seq<seq<string>>)
    ensures |q| == |segs|
    ensures forall i :: 0 <= i < |segs| ==> q[i] == segs[i].parts
  {
    seq(|segs|, i requires 0 <= i < |segs| => segs[i].parts)
  }

  lemma {:induction false} ConcatFlat(segs: seq<Segment>, k: nat)
    requires k <= |segs|
    ensures Concat(segs, k) == Flat(PartsOf(segs), k)
  {
    if k > 0 {
      ConcatFlat(segs, k - 1);
    }
  }

  /** The parts of each segment that set `n`. */
  function Picks(segs: seq<Segment>, n: string): (q: seq<seq<string>>)
    ensures |q| == |segs|
    ensures forall i :: 0 <= i < |segs| ==> q[i] == OptParts(segs[i].parts, n)
  {
    FilterEach(PartsOf(segs), Sets(n))
  }

  /** Picking the parts that set `n` commutes with joining the segments. */
  lemma OptPartsConcat(segs: seq<Segment>, k: nat, n: string)
    requires k <= |segs|
    ensures OptParts(Concat(segs, k), n) == Flat(Picks(segs, n), k)
  {
    ConcatFlat(segs, k);
    FilterFlat(PartsOf(segs), k, Sets(n));
  }

  /** `[f'--{option}={p}' for p in ps]`. */
  function OptAll(option: string, ps: seq<string>): (r: seq<string>)
    ensures |r| == |ps|
    ensures forall i :: 0 <= i < |ps| ==> r[i] == Assign(option, ps[i])
  {
    seq(|ps|, i requires 0 <= i < |ps| => Assign(option, ps[i]))
  }

  /** The parts of a comma-separated setting: one per non-empty piece. */
  function CommaParts(option: string, value: string): seq<string> {
    OptAll(option, NonEmpty(Split(value, ',')))
  }

  // ---------------------------------------------------------------------------
  // The settings the command reads

  /** The values `build_nuitka_command` reads from the `Nuitka` section. */
  datatype NuitkaSettings = NuitkaSettings(
    standalone: string, onefile: string, showProgress: string, showMemory: string,
    outputDir: string, moduleNameChoice: string, windowsIcon: string, windowsConsoleMode: string,
    companyName: string, productName: string, fileVersion: string, fileDescription: string,
    copyright: string, trademarks: string,
    includePackageData: string, includeDataFiles: string, noincludeDlls: string,
    jobs: string, lto: string,
    preferSourceCode: string, removeOutput: string, unstripped: string, lowMemory: string,
    pythonFlag: string, followImports: string)

  /** `nuitka_config[key]` for every key the builder reads. */
  function ReadSettings(sec: seq<Entry>): NuitkaSettings
    requires SectionReady(sec)
  {
    NuitkaSettings(
      Value(sec, "standalone"), Value(sec, "onefile"), Value(sec, "show_progress"), Value(sec, "show_memory"),
      Value(sec, "output_dir"), Value(sec, "module_name_choice"), Value(sec, "windows_icon"),
      Value(sec, "windows_console_mode"),
      Value(sec, "company_name"), Value(sec, "product_name"), Value(sec, "file_version"),
      Value(sec, "file_description"), Value(sec, "copyright"), Value(sec, "trademarks"),
      Value(sec, "include_package_data"), Value(sec, "include_data_files"), Value(sec, "noinclude_dlls"),
      Value(sec, "jobs"), Value(sec, "lto"),
      Value(sec, "prefer_source_code"), Value(sec, "remove_output"), Value(sec, "unstripped"),
      Value(sec, "low_memory"), Value(sec, "python_flag"), Value(sec, "follow_imports"))
  }

  /** The version-information keys, in the order the loop visits them. */
  const VersionKeys: seq<string> := ["company_name", "product_name", "file_version", "file_description", "copyright", "trademarks"]

  function VersionValues(s: NuitkaSettings): (r: seq<string>)
    ensures |r| == |VersionKeys|
  {
    [s.companyName, s.productName, s.fileVersion, s.fileDescription, s.copyright, s.trademarks]
  }

  /** The boolean settings, in the order `getboolean` reads them. */
  function BoolValues(s: NuitkaSettings): seq<string> {
    [s.standalone, s.onefile, s.showProgress, s.showMemory,
     s.preferSourceCode, s.removeOutput, s.unstripped, s.lowMemory, s.followImports]
  }

  // ---------------------------------------------------------------------------
  // The command

  /** The command's option names, one per segment, in order; `""` for the two
      leading words. */
  const NuitkaOptions: seq<string> := [
    "", "output-dir", "standalone", "onefile", "show-progress", "show-memory",
    "module-name-choice", "windows-icon-from-ico", "windows-console-mode",
    "company-name", "product-name", "file-version", "file-description", "copyright", "trademarks",
    "include-package-data", "include-data-files", "noinclude-dlls", "jobs", "lto",
    "prefer-source-code", "remove-output", "unstripped", "low-memory", "python-flag", "follow-imports"]

  /** No two steps set the same option, and no option name holds `=`. */
  lemma NuitkaOptionsDistinct()
    ensures forall i, j :: 0 <= i < j < |NuitkaOptions| ==> NuitkaOptions[i] != NuitkaOptions[j]
    ensures forall i :: 0 <= i < |NuitkaOptions| ==> '=' !in NuitkaOptions[i]
  {
    OptionsDistinctFrom0();
    OptionsDistinctFrom9();
    OptionsDistinctFrom18();
    OptionsWithoutEquals();
  }

  lemma OptionsDistinctFrom0()
    ensures forall i, j :: 0 <= i < 9 && i < j < |NuitkaOptions| ==> NuitkaOptions[i] != NuitkaOptions[j]
  {
  }

  lemma OptionsDistinctFrom9()
    ensures forall i, j :: 9 <= i < 18 && i < j < |NuitkaOptions| ==> NuitkaOptions[i] != NuitkaOptions[j]
  {
  }

  lemma OptionsDistinctFrom18()
    ensures forall i, j :: 18 <= i < j < |NuitkaOptions| ==> NuitkaOptions[i] != NuitkaOptions[j]
  {
  }

  lemma OptionsWithoutEquals()
    ensures forall i :: 0 <= i < |NuitkaOptions| ==> '=' !in NuitkaOptions[i]
  {
    LeadingOptionsWithoutEquals();
    TrailingOptionsWithoutEquals();
  }

  lemma LeadingOptionsWithoutEquals()
    ensures forall i :: 0 <= i < 13 ==> '=' !in NuitkaOptions[i]
  {
  }

  lemma TrailingOptionsWithoutEquals()
    ensures forall i :: 13 <= i < |NuitkaOptions| ==> '=' !in NuitkaOptions[i]
  {
  }

  /** The values `windows_console_mode` may take. */
  const ConsoleModes: seq<string> := ["force", "disable", "attach", "hide"]

  /** `os.sep` for `os.name`. */
  function Sep(osName: string): string {
    if osName == "nt" then "\\" else "/"
  }

  /** `os.path.join(self.project_path, self.main_file)` as the command shows it:
      the entry file below the project, or the entry file itself when it is an
      absolute path. */
  function EntryPath(c: NuitkaCompiler, osName: string): string {
    JoinText(Render(c.projectPath, Sep(osName)), c.mainFile, Sep(osName))
  }

  /** An absolute entry file is passed as it stands; on POSIX the entry path
      names the path that joining the entry file's components to the project gives. */
  lemma EntryPathJoined(c: NuitkaCompiler, osName: string)
    requires |c.projectPath| > 0 && SlashFree(c.projectPath)
    ensures StartsWith(c.mainFile, "/") ==> EntryPath(c, osName) == c.mainFile
    ensures osName != "nt" ==> Split(EntryPath(c, osName), '/') == JoinPath(c.projectPath, c.mainFile)
  {
    if osName != "nt" {
      JoinTextRendered(c.projectPath, c.mainFile);
    }
  }

  /** `if getboolean(...): append('--<option>')`. */
  function Flag(value: string, option: string): Segment {
    Segment(option, if GetBoolean(value) == Ok(true) then [Switch(option)] else [])
  }

  /** `--<option>=<value>`, or `--<option>="<value>"` when `quoted`, unless the value is empty. */
  function Valued(value: string, option: string, quoted: bool): Segment {
    Segment(option, if value != "" then [Assign(option, if quoted then Quote(value) else value)] else [])
  }

  /** `--<option>=<value>` unless the value is `auto`. */
  function NotAuto(value: string, option: string): Segment {
    Segment(option, if value != "auto" then [Assign(option, value)] else [])
  }

  /** One `--<option>=<piece>` per non-empty comma-separated piece. */
  function Listed(value: string, option: string): Segment {
    Segment(option, CommaParts(option, value))
  }

  /** What the `k`-th step of `build_nuitka_command` contributes. */
  function NuitkaSegment(c: NuitkaCompiler, osName: string, s: NuitkaSettings, k: nat): (seg: Segment)
    requires k < |NuitkaOptions|
    ensures seg.option == NuitkaOptions[k]
  {
    if k < 9 then HeadSegment(c, osName, s, k)
    else if k < 15 then VersionSegmentOf(s, k)
    else TailSegment(s, k)
  }

  /** The steps before the version information. */
  function HeadSegment(c: NuitkaCompiler, osName: string, s: NuitkaSettings, k: nat): (seg: Segment)
    requires k < 9
    ensures seg.option == NuitkaOptions[k]
  {
    var sep := Sep(osName);
    var nt := osName == "nt";
    if k == 0 then Segment(NuitkaOptions[0], ["python -m nuitka", Quote(EntryPath(c, osName))])
    else if k == 1 then Segment(NuitkaOptions[1], [Assign(NuitkaOptions[1], Quote(Render(c.outputDir, sep)))])
    else if k == 2 then Flag(s.standalone, NuitkaOptions[2])
    else if k == 3 then Flag(s.onefile, NuitkaOptions[3])
    else if k == 4 then Flag(s.showProgress, NuitkaOptions[4])
    else if k == 5 then Flag(s.showMemory, NuitkaOptions[5])
    else if k == 6 then Valued(s.moduleNameChoice, NuitkaOptions[6], false)
    else if k == 7 then
      Segment(NuitkaOptions[7],
        if nt && s.windowsIcon != "" then [Assign(NuitkaOptions[7], Quote(s.windowsIcon))] else [])
    else
      Segment(NuitkaOptions[8],
        if nt && s.windowsConsoleMode in ConsoleModes then [Assign(NuitkaOptions[8], s.windowsConsoleMode)] else [])
  }

  /** The version-information steps. */
  function VersionSegmentOf(s: NuitkaSettings, k: nat): (seg: Segment)
    requires 9 <= k < 15
    ensures seg.option == NuitkaOptions[k]
  {
    if k == 9 then Valued(s.companyName, NuitkaOptions[9], true)
    else if k == 10 then Valued(s.productName, NuitkaOptions[10], true)
    else if k == 11 then Valued(s.fileVersion, NuitkaOptions[11], true)
    else if k == 12 then Valued(s.fileDescription, NuitkaOptions[12], true)
    else if k == 13 then Valued(s.copyright, NuitkaOptions[13], true)
    else Valued(s.trademarks, NuitkaOptions[14], true)
  }

  /** The steps after the version information. */
  function TailSegment(s: NuitkaSettings, k: nat): (seg: Segment)
    requires 15 <= k < |NuitkaOptions|
    ensures seg.option == NuitkaOptions[k]
  {
    if k == 15 then Listed(s.includePackageData, NuitkaOptions[15])
    else if k == 16 then Listed(s.includeDataFiles, NuitkaOptions[16])
    else if k == 17 then Listed(s.noincludeDlls, NuitkaOptions[17])
    else if k == 18 then NotAuto(s.jobs, NuitkaOptions[18])
    else if k == 19 then NotAuto(s.lto, NuitkaOptions[19])
    else if k == 20 then Flag(s.preferSourceCode, NuitkaOptions[20])
    else if k == 21 then Flag(s.removeOutput, NuitkaOptions[21])
    else if k == 22 then Flag(s.unstripped, NuitkaOptions[22])
    else if k == 23 then Flag(s.lowMemory, NuitkaOptions[23])
    else if k == 24 then Listed(s.pythonFlag, NuitkaOptions[24])
    else Flag(s.followImports, NuitkaOptions[25])
  }

  /** The steps of `build_nuitka_command`, in order. */
  function NuitkaSegments(c: NuitkaCompiler, osName: string, s: NuitkaSettings): (segs: seq<Segment>)
    ensures |segs| == |NuitkaOptions|
    ensures forall k :: 0 <= k < |segs| ==> segs[k] == NuitkaSegment(c, osName, s, k)
  {
    seq(|NuitkaOptions|, k requires 0 <= k < |NuitkaOptions| => NuitkaSegment(c, osName, s, k))
  }

  /** The error of the first of the four leading boolean settings that
      `getboolean` refuses, if any. */
  function HeadError(s: NuitkaSettings): Option<Error> {
    if GetBoolean(s.standalone).Err? then Some(NotABoolean(s.standalone))
    else if GetBoolean(s.onefile).Err? then Some(NotABoolean(s.onefile))
    else if GetBoolean(s.showProgress).Err? then Some(NotABoolean(s.showProgress))
    else if GetBoolean(s.showMemory).Err? then Some(NotABoolean(s.showMemory))
    else None
  }

  /** The same for the five boolean settings read after the version information. */
  function TailError(s: NuitkaSettings): Option<Error> {
    if GetBoolean(s.preferSourceCode).Err? then Some(NotABoolean(s.preferSourceCode))
    else if GetBoolean(s.removeOutput).Err? then Some(NotABoolean(s.removeOutput))
    else if GetBoolean(s.unstripped).Err? then Some(NotABoolean(s.unstripped))
    else if GetBoolean(s.lowMemory).Err? then Some(NotABoolean(s.lowMemory))
    else if GetBoolean(s.followImports).Err? then Some(NotABoolean(s.followImports))
    else None
  }

  /** The error of the first boolean setting that `getboolean` refuses, if any. */
  function BoolError(s: NuitkaSettings): Option<Error> {
    if HeadError(s).Some? then HeadError(s) else TailError(s)
  }

  /** The parts of the command built from settings `s`. */
  function NuitkaParts(c: NuitkaCompiler, osName: string, s: NuitkaSettings): seq<string> {
    Concat(NuitkaSegments(c, osName, s), |NuitkaOptions|)
  }

  /** `build_nuitka_command` on settings `s`: the parts joined with spaces, or
      the error of the first setting `getboolean` refuses. */
  function CommandFor(c: NuitkaCompiler, osName: string, s: NuitkaSettings): Result<string> {
    match BoolError(s)
    case Some(e) => Err(e)
    case None => Ok(Join(" ", NuitkaParts(c, osName, s)))
  }

  // ---------------------------------------------------------------------------
  // The builder

  /** `build_nuitka_command`. `warned` says whether the notice that the
      configured `output_dir` is ignored was given. */
  method BuildNuitkaCommand(c: NuitkaCompiler, osName: string) returns (r: Result<string>, warned: bool)
    requires Ready(c.config)
    ensures r == CommandFor(c, osName, ReadSettings(Entries(c.config, "Nuitka")))
    ensures var s := ReadSettings(Entries(c.config, "Nuitka"));
      warned <==> HeadError(s).None? && s.outputDir != ""
  {
    var s := ReadSettings(Entries(c.config, "Nuitka"));
    var head;
    head, warned := BuildHead(c, osName, s);
    if head.Err? {
      return Err(head.error), warned;
    }
    var parts := AppendVersionInfo(head.value, s);
    var tail := BuildTail(parts, s);
    if tail.Err? {
      return Err(tail.error), warned;
    }
    TailSteps(c, osName, s);
    r := Ok(Join(" ", tail.value));
  }

  /** The steps up to the Windows options: the two leading words, the output
      directory, the four leading switches, the module-name choice, the icon
      and the console mode. */
  method BuildHead(c: NuitkaCompiler, osName: string, s: NuitkaSettings) returns (r: Result<seq<string>>, warned: bool)
    ensures HeadError(s).Some? ==> r == Err(HeadError(s).value)
    ensures HeadError(s).None? ==> r == Ok(Concat(NuitkaSegments(c, osName, s), 9))
    ensures warned <==> HeadError(s).None? && s.outputDir != ""
  {
    var sep := Sep(osName);
    warned := false;
    var parts := ["python -m nuitka", Quote(EntryPath(c, osName)),
                  Assign(NuitkaOptions[1], Quote(Render(c.outputDir, sep)))];
    assert parts == [] + NuitkaSegment(c, osName, s, 0).parts + NuitkaSegment(c, osName, s, 1).parts;

    var b := AppendSwitch(parts, s.standalone, NuitkaOptions[2]);
    if b.Err? { return Err(b.error), warned; }
    b := AppendSwitch(b.value, s.onefile, NuitkaOptions[3]);
    if b.Err? { return Err(b.error), warned; }
    b := AppendSwitch(b.value, s.showProgress, NuitkaOptions[4]);
    if b.Err? { return Err(b.error), warned; }
    b := AppendSwitch(b.value, s.showMemory, NuitkaOptions[5]);
    if b.Err? { return Err(b.error), warned; }
    parts := b.value;

    if s.outputDir != "" { warned := true; }

    parts := AppendValued(parts, s.moduleNameChoice, NuitkaOptions[6], false);

    ghost var before := parts;
    if osName == "nt" {
      if s.windowsIcon != "" {
        parts := parts + [Assign(NuitkaOptions[7], Quote(s.windowsIcon))];
      }
      var mode := s.windowsConsoleMode;
      if mode in ConsoleModes {
        parts := parts + [Assign(NuitkaOptions[8], mode)];
      }
    }
    WindowsSteps(c, osName, s, before, parts);
    HeadSteps(c, osName, s);
    r := Ok(parts);
  }

  /** The loop over the version-information keys. */
  method AppendVersionInfo(parts: seq<string>, s: NuitkaSettings) returns (r: seq<string>)
    ensures r == parts + VersionParts(s, |VersionKeys|)
  {
    r := parts;
    var i := 0;
    while i < |VersionKeys|
      invariant 0 <= i <= |VersionKeys|
      invariant r == parts + VersionParts(s, i)
    {
      var key := VersionKeys[i];
      r := AppendValued(r, VersionValues(s)[i], ReplaceChar(key, '_', '-'), true);
      i := i + 1;
    }
  }

  /** The steps after the version information: the comma-separated lists,
      `jobs` and `lto`, the remaining switches and the Python flags. */
  method BuildTail(parts: seq<string>, s: NuitkaSettings) returns (r: Result<seq<string>>)
    ensures TailError(s).Some? ==> r == Err(TailError(s).value)
    ensures TailError(s).None? ==> r == Ok(WithTail(parts, s))
  {
    var p := AppendCommaList(parts, NuitkaOptions[15], s.includePackageData);
    p := AppendCommaList(p, NuitkaOptions[16], s.includeDataFiles);
    p := AppendCommaList(p, NuitkaOptions[17], s.noincludeDlls);

    p := AppendUnlessAuto(p, s.jobs, NuitkaOptions[18]);
    p := AppendUnlessAuto(p, s.lto, NuitkaOptions[19]);

    var b := AppendSwitch(p, s.preferSourceCode, NuitkaOptions[20]);
    if b.Err? { return Err(b.error); }
    b := AppendSwitch(b.value, s.removeOutput, NuitkaOptions[21]);
    if b.Err? { return Err(b.error); }
    b := AppendSwitch(b.value, s.unstripped, NuitkaOptions[22]);
    if b.Err? { return Err(b.error); }
    b := AppendSwitch(b.value, s.lowMemory, NuitkaOptions[23]);
    if b.Err? { return Err(b.error); }
    p := AppendCommaList(b.value, NuitkaOptions[24], s.pythonFlag);

    b := AppendSwitch(p, s.followImports, NuitkaOptions[25]);
    if b.Err? { return Err(b.error); }
    r := Ok(b.value);
  }

  /** `if nuitka_config.getboolean(key): cmd_parts.append('--<option>')`, with
      `getboolean`'s error when the value is not a boolean word. */
  method AppendSwitch(parts: seq<string>, value: string, option: string) returns (r: Result<seq<string>>)
    ensures GetBoolean(value).Err? ==> r == Err(NotABoolean(value))
    ensures GetBoolean(value).Ok? ==> r == Ok(parts + Flag(value, option).parts)
  {
    var b := GetBoolean(value);
    if b.Err? {
      return Err(b.error);
    }
    if b.value {
      r := Ok(parts + [Switch(option)]);
    } else {
      assert parts + [] == parts;
      r := Ok(parts);
    }
  }

  /** `if value: cmd_parts.append(f'--<option>=<value>')`, the value in double
      quotes when `quoted`. */
  method AppendValued(parts: seq<string>, value: string, option: string, quoted: bool) returns (r: seq<string>)
    ensures r == parts + Valued(value, option, quoted).parts
  {
    r := parts;
    if value != "" {
      r := r + [Assign(option, if quoted then Quote(value) else value)];
    } else {
      assert parts + [] == parts;
    }
  }

  /** `if value != 'auto': cmd_parts.append(f'--<option>=<value>')`. */
  method AppendUnlessAuto(parts: seq<string>, value: string, option: string) returns (r: seq<string>)
    ensures r == parts + NotAuto(value, option).parts
  {
    r := parts;
    if value != "auto" {
      r := r + [Assign(option, value)];
    } else {
      assert parts + [] == parts;
    }
  }

  /** The Windows-only steps append the icon and the console-mode options. */
  lemma WindowsSteps(c: NuitkaCompiler, osName: string, s: NuitkaSettings, before: seq<string>, after: seq<string>)
    requires after == before
      + (if osName == "nt" && s.windowsIcon != "" then [Assign(NuitkaOptions[7], Quote(s.windowsIcon))] else [])
      + (if osName == "nt" && s.windowsConsoleMode in ConsoleModes then [Assign(NuitkaOptions[8], s.windowsConsoleMode)] else [])
    ensures after == before + NuitkaSegment(c, osName, s, 7).parts + NuitkaSegment(c, osName, s, 8).parts
  {
  }

  /** The steps before the version information. */
  lemma HeadSteps(c: NuitkaCompiler, osName: string, s: NuitkaSettings)
    ensures Concat(NuitkaSegments(c, osName, s), 9) ==
      [] + NuitkaSegment(c, osName, s, 0).parts + NuitkaSegment(c, osName, s, 1).parts
      + Flag(s.standalone, NuitkaOptions[2]).parts + Flag(s.onefile, NuitkaOptions[3]).parts
      + Flag(s.showProgress, NuitkaOptions[4]).parts + Flag(s.showMemory, NuitkaOptions[5]).parts
      + Valued(s.moduleNameChoice, NuitkaOptions[6], false).parts
      + NuitkaSegment(c, osName, s, 7).parts + NuitkaSegment(c, osName, s, 8).parts
  {
    var segs := NuitkaSegments(c, osName, s);
    assert Concat(segs, 1) == [] + segs[0].parts;
    assert Concat(segs, 2) == Concat(segs, 1) + segs[1].parts;
    assert Concat(segs, 3) == Concat(segs, 2) + segs[2].parts;
    assert Concat(segs, 4) == Concat(segs, 3) + segs[3].parts;
    assert Concat(segs, 5) == Concat(segs, 4) + segs[4].parts;
    assert Concat(segs, 6) == Concat(segs, 5) + segs[5].parts;
    assert Concat(segs, 7) == Concat(segs, 6) + segs[6].parts;
    assert Concat(segs, 8) == Concat(segs, 7) + segs[7].parts;
    assert Concat(segs, 9) == Concat(segs, 8) + segs[8].parts;
  }

  /** `p` followed by what the steps after the version information append. */
  function WithTail(p: seq<string>, s: NuitkaSettings): seq<string> {
    p
    + Listed(s.includePackageData, NuitkaOptions[15]).parts
    + Listed(s.includeDataFiles, NuitkaOptions[16]).parts
    + Listed(s.noincludeDlls, NuitkaOptions[17]).parts
    + NotAuto(s.jobs, NuitkaOptions[18]).parts + NotAuto(s.lto, NuitkaOptions[19]).parts
    + Flag(s.preferSourceCode, NuitkaOptions[20]).parts + Flag(s.removeOutput, NuitkaOptions[21]).parts
    + Flag(s.unstripped, NuitkaOptions[22]).parts + Flag(s.lowMemory, NuitkaOptions[23]).parts
    + Listed(s.pythonFlag, NuitkaOptions[24]).parts
    + Flag(s.followImports, NuitkaOptions[25]).parts
  }

  /** The command is the steps before the version information, the version
      information and the steps after it. */
  lemma TailSteps(c: NuitkaCompiler, osName: string, s: NuitkaSettings)
    ensures NuitkaParts(c, osName, s) ==
      WithTail(Concat(NuitkaSegments(c, osName, s), 9) + VersionParts(s, |VersionKeys|), s)
  {
    var segs := NuitkaSegments(c, osName, s);
    VersionStepsConcat(c, osName, s);
    ListSteps(segs);
    LastSteps(segs);
    ListSegments(c, osName, s);
    LastSegments(c, osName, s);
  }

  /** Steps 15 to 19 follow the version information. */
  lemma ListSteps(segs: seq<Segment>)
    requires |segs| == |NuitkaOptions|
    ensures Concat(segs, 20) == Concat(segs, 15)
      + segs[15].parts + segs[16].parts + segs[17].parts + segs[18].parts + segs[19].parts
  {
    assert Concat(segs, 16) == Concat(segs, 15) + segs[15].parts;
    assert Concat(segs, 17) == Concat(segs, 16) + segs[16].parts;
    assert Concat(segs, 18) == Concat(segs, 17) + segs[17].parts;
    assert Concat(segs, 19) == Concat(segs, 18) + segs[18].parts;
    assert Concat(segs, 20) == Concat(segs, 19) + segs[19].parts;
  }

  /** Steps 20 to 25 end the command. */
  lemma LastSteps(segs: seq<Segment>)
    requires |segs| == |NuitkaOptions|
    ensures Concat(segs, 26) == Concat(segs, 20)
      + segs[20].parts + segs[21].parts + segs[22].parts + segs[23].parts + segs[24].parts + segs[25].parts
  {
    assert Concat(segs, 21) == Concat(segs, 20) + segs[20].parts;
    assert Concat(segs, 22) == Concat(segs, 21) + segs[21].parts;
    assert Concat(segs, 23) == Concat(segs, 22) + segs[22].parts;
    assert Concat(segs, 24) == Concat(segs, 23) + segs[23].parts;
    assert Concat(segs, 25) == Concat(segs, 24) + segs[24].parts;
    assert Concat(segs, 26) == Concat(segs, 25) + segs[25].parts;
  }

  /** The comma-separated lists and `jobs` and `lto` are steps 15 to 19. */
  lemma ListSegments(c: NuitkaCompiler, osName: string, s: NuitkaSettings)
    ensures var segs := NuitkaSegments(c, osName, s);
      && segs[15] == Listed(s.includePackageData, NuitkaOptions[15])
      && segs[16] == Listed(s.includeDataFiles, NuitkaOptions[16])
      && segs[17] == Listed(s.noincludeDlls, NuitkaOptions[17])
      && segs[18] == NotAuto(s.jobs, NuitkaOptions[18])
      && segs[19] == NotAuto(s.lto, NuitkaOptions[19])
  {
  }

  /** The remaining switches and the Python flags are steps 20 to 25. */
  lemma LastSegments(c: NuitkaCompiler, osName: string, s: NuitkaSettings)
    ensures var segs := NuitkaSegments(c, osName, s);
      && segs[20] == Flag(s.preferSourceCode, NuitkaOptions[20])
      && segs[21] == Flag(s.removeOutput, NuitkaOptions[21])
      && segs[22] == Flag(s.unstripped, NuitkaOptions[22])
      && segs[23] == Flag(s.lowMemory, NuitkaOptions[23])
      && segs[24] == Listed(s.pythonFlag, NuitkaOptions[24])
      && segs[25] == Flag(s.followImports, NuitkaOptions[25])
  {
    LateSwitchSegments(c, osName, s);
    FinalSegments(c, osName, s);
  }

  lemma LateSwitchSegments(c: NuitkaCompiler, osName: string, s: NuitkaSettings)
    ensures var segs := NuitkaSegments(c, osName, s);
      && segs[20] == Flag(s.preferSourceCode, NuitkaOptions[20])
      && segs[21] == Flag(s.removeOutput, NuitkaOptions[21])
      && segs[22] == Flag(s.unstripped, NuitkaOptions[22])
  {
  }

  lemma FinalSegments(c: NuitkaCompiler, osName: string, s: NuitkaSettings)
    ensures var segs := NuitkaSegments(c, osName, s);
      && segs[23] == Flag(s.lowMemory, NuitkaOptions[23])
      && segs[24] == Listed(s.pythonFlag, NuitkaOptions[24])
      && segs[25] == Flag(s.followImports, NuitkaOptions[25])
  {
  }

  /** The version-information step for the `i`-th key: the key with dashes for
      underscores, and its value quoted. */
  lemma VersionSegment(c: NuitkaCompiler, osName: string, s: NuitkaSettings, i: nat)
    requires i < |VersionKeys|
    ensures NuitkaSegment(c, osName, s, 9 + i) ==
      Valued(VersionValues(s)[i], ReplaceChar(VersionKeys[i], '_', '-'), true)
  {
    if i < 3 {
      LeadingVersionSegment(c, osName, s, i);
    } else {
      TrailingVersionSegment(c, osName, s, i);
    }
  }

  lemma LeadingVersionSegment(c: NuitkaCompiler, osName: string, s: NuitkaSettings, i: nat)
    requires i < 3
    ensures NuitkaSegment(c, osName, s, 9 + i) ==
      Valued(VersionValues(s)[i], ReplaceChar(VersionKeys[i], '_', '-'), true)
  {
    if i == 0 {
      assert ReplaceChar("company_name", '_', '-') == "company-name";
    } else if i == 1 {
      assert ReplaceChar("product_name", '_', '-') == "product-name";
    } else {
      assert ReplaceChar("file_version", '_', '-') == "file-version";
    }
  }

  lemma TrailingVersionSegment(c: NuitkaCompiler, osName: string, s: NuitkaSettings, i: nat)
    requires 3 <= i < |VersionKeys|
    ensures NuitkaSegment(c, osName, s, 9 + i) ==
      Valued(VersionValues(s)[i], ReplaceChar(VersionKeys[i], '_', '-'), true)
  {
    if i == 3 {
      assert ReplaceChar("file_description", '_', '-') == "file-description";
    } else if i == 4 {
      assert ReplaceChar("copyright", '_', '-') == "copyright";
    } else {
      assert ReplaceChar("trademarks", '_', '-') == "trademarks";
    }
  }

  /** What the loop over the first `i` version-information keys appends. */
  function VersionParts(s: NuitkaSettings, i: nat): seq<string>
    requires i <= |VersionKeys|
  {
    if i == 0 then []
    else VersionParts(s, i - 1) + Valued(VersionValues(s)[i - 1], ReplaceChar(VersionKeys[i - 1], '_', '-'), true).parts
  }

  /** The loop over the version-information keys appends the steps 9 to 14. */
  lemma VersionStepsConcat(c: NuitkaCompiler, osName: string, s: NuitkaSettings)
    ensures Concat(NuitkaSegments(c, osName, s), 15) == Concat(NuitkaSegments(c, osName, s), 9) + VersionParts(s, 6)
  {
    VersionPrefix(c, osName, s, 6);
  }

  /** The loop's first `i` rounds append the steps 9 to `9 + i - 1`. */
  lemma {:induction false} VersionPrefix(c: NuitkaCompiler, osName: string, s: NuitkaSettings, i: nat)
    requires i <= |VersionKeys|
    ensures Concat(NuitkaSegments(c, osName, s), 9 + i) == Concat(NuitkaSegments(c, osName, s), 9) + VersionParts(s, i)
  {
    if i > 0 {
      var segs := NuitkaSegments(c, osName, s);
      VersionPrefix(c, osName, s, i - 1);
      VersionSegment(c, osName, s, i - 1);
      assert Concat(segs, 9 + i) == Concat(segs, 9 + i - 1) + segs[9 + i - 1].parts;
    }
  }

  /** `if value: for piece in value.split(','): if piece: parts.append(...)`. */
  method AppendCommaList(parts: seq<string>, option: string, value: string) returns (r: seq<string>)
    ensures r == parts + Listed(value, option).parts
  {
    r := parts;
    if value != "" {
      var pieces := Split(value, ',');
      var i := 0;
      while i < |pieces|
        invariant 0 <= i <= |pieces|
        invariant r == parts + OptAll(option, NonEmpty(pieces[..i]))
      {
        assert pieces[..i + 1][..i] == pieces[..i];
        if pieces[i] != "" {
          r := r + [Assign(option, pieces[i])];
        }
        i := i + 1;
      }
      assert pieces[..|pieces|] == pieces;
    }
  }

  // ---------------------------------------------------------------------------
  // What the command holds

  lemma FlagTagged(value: string, option: string)
    requires '=' !in option
    ensures SegTagged(Flag(value, option))
  {
    OptNameOfSwitch(option);
  }

  lemma ValuedTagged(value: string, option: string, quoted: bool)
    requires '=' !in option
    ensures SegTagged(Valued(value, option, quoted))
  {
    OptNameOfAssign(option, if quoted then Quote(value) else value);
  }

  lemma NotAutoTagged(value: string, option: string)
    requires '=' !in option
    ensures SegTagged(NotAuto(value, option))
  {
    OptNameOfAssign(option, value);
  }

  lemma ListedTagged(value: string, option: string)
    requires '=' !in option
    ensures SegTagged(Listed(value, option))
  {
    var ps := NonEmpty(Split(value, ','));
    forall i | 0 <= i < |ps| ensures OptName(Assign(option, ps[i])) == option {
      OptNameOfAssign(option, ps[i]);
    }
  }

  /** Every part of the `j`-th step sets the `j`-th option. */
  lemma SegmentTagged(c: NuitkaCompiler, osName: string, s: NuitkaSettings, j: nat)
    requires j < |NuitkaOptions|
    ensures SegTagged(NuitkaSegment(c, osName, s, j))
  {
    if j < 9 {
      HeadTagged(c, osName, s, j);
    } else if j < 15 {
      VersionTagged(s, j);
    } else {
      TailTagged(s, j);
    }
  }

  lemma HeadTagged(c: NuitkaCompiler, osName: string, s: NuitkaSettings, j: nat)
    requires j < 9
    ensures SegTagged(HeadSegment(c, osName, s, j))
  {
    OptionsWithoutEquals();
    var sep := Sep(osName);
    if j == 0 {
      assert Quote(EntryPath(c, osName))[0] == '"';
    } else if j == 1 {
      OptNameOfAssign(NuitkaOptions[1], Quote(Render(c.outputDir, sep)));
    } else if j == 2 {
      FlagTagged(s.standalone, NuitkaOptions[2]);
    } else if j == 3 {
      FlagTagged(s.onefile, NuitkaOptions[3]);
    } else if j == 4 {
      FlagTagged(s.showProgress, NuitkaOptions[4]);
    } else if j == 5 {
      FlagTagged(s.showMemory, NuitkaOptions[5]);
    } else if j == 6 {
      ValuedTagged(s.moduleNameChoice, NuitkaOptions[6], false);
    } else if j == 7 {
      OptNameOfAssign(NuitkaOptions[7], Quote(s.windowsIcon));
    } else {
      OptNameOfAssign(NuitkaOptions[8], s.windowsConsoleMode);
    }
  }

  lemma VersionTagged(s: NuitkaSettings, j: nat)
    requires 9 <= j < 15
    ensures SegTagged(VersionSegmentOf(s, j))
  {
    OptionsWithoutEquals();
    if j == 9 {
      ValuedTagged(s.companyName, NuitkaOptions[9], true);
    } else if j == 10 {
      ValuedTagged(s.productName, NuitkaOptions[10], true);
    } else if j == 11 {
      ValuedTagged(s.fileVersion, NuitkaOptions[11], true);
    } else if j == 12 {
      ValuedTagged(s.fileDescription, NuitkaOptions[12], true);
    } else if j == 13 {
      ValuedTagged(s.copyright, NuitkaOptions[13], true);
    } else {
      ValuedTagged(s.trademarks, NuitkaOptions[14], true);
    }
  }

  lemma TailTagged(s: NuitkaSettings, j: nat)
    requires 15 <= j < |NuitkaOptions|
    ensures SegTagged(TailSegment(s, j))
  {
    OptionsWithoutEquals();
    if j == 15 {
      ListedTagged(s.includePackageData, NuitkaOptions[15]);
    } else if j == 16 {
      ListedTagged(s.includeDataFiles, NuitkaOptions[16]);
    } else if j == 17 {
      ListedTagged(s.noincludeDlls, NuitkaOptions[17]);
    } else if j == 18 {
      NotAutoTagged(s.jobs, NuitkaOptions[18]);
    } else if j == 19 {
      NotAutoTagged(s.lto, NuitkaOptions[19]);
    } else if j == 20 {
      FlagTagged(s.preferSourceCode, NuitkaOptions[20]);
    } else if j == 21 {
      FlagTagged(s.removeOutput, NuitkaOptions[21]);
    } else if j == 22 {
      FlagTagged(s.unstripped, NuitkaOptions[22]);
    } else if j == 23 {
      FlagTagged(s.lowMemory, NuitkaOptions[23]);
    } else if j == 24 {
      ListedTagged(s.pythonFlag, NuitkaOptions[24]);
    } else {
      FlagTagged(s.followImports, NuitkaOptions[25]);
    }
  }

  lemma SegmentsSeparate(c: NuitkaCompiler, osName: string, s: NuitkaSettings)
    ensures Separate(NuitkaSegments(c, osName, s))
  {
    var segs := NuitkaSegments(c, osName, s);
    forall j | 0 <= j < |segs| ensures SegTagged(segs[j]) {
      SegmentTagged(c, osName, s, j);
    }
    NuitkaOptionsDistinct();
  }

  /** The parts that set the `k`-th option are exactly those of the `k`-th step. */
  lemma OptionOfSegment(c: NuitkaCompiler, osName: string, s: NuitkaSettings, k: nat)
    requires k < |NuitkaOptions|
    ensures OptParts(NuitkaParts(c, osName, s), NuitkaOptions[k]) == NuitkaSegment(c, osName, s, k).parts
  {
    var segs := NuitkaSegments(c, osName, s);
    var n := NuitkaOptions[k];
    SegmentsSeparate(c, osName, s);
    var q := Picks(segs, n);
    forall i | 0 <= i < |segs| && i != k ensures q[i] == [] {
      if i < k { assert segs[i].option != segs[k].option; } else { assert segs[k].option != segs[i].option; }
      OptPartsUniform(segs[i].parts, segs[i].option, n);
    }
    OptPartsUniform(segs[k].parts, segs[k].option, n);
    FlatOne(q, |segs|, k);
    OptPartsConcat(segs, |segs|, n);
  }

  /** No part of the command sets an option outside `NuitkaOptions`, and the
      only words that are not options are the two leading ones. */
  lemma NoOtherOptions(c: NuitkaCompiler, osName: string, s: NuitkaSettings, n: string)
    ensures n !in NuitkaOptions ==> OptParts(NuitkaParts(c, osName, s), n) == []
    ensures OptParts(NuitkaParts(c, osName, s), "") ==
      ["python -m nuitka", Quote(EntryPath(c, osName))]
  {
    if n !in NuitkaOptions {
      var segs := NuitkaSegments(c, osName, s);
      SegmentsSeparate(c, osName, s);
      var q := Picks(segs, n);
      forall i | 0 <= i < |segs| ensures q[i] == [] {
        assert segs[i].option == NuitkaOptions[i];
        OptPartsUniform(segs[i].parts, segs[i].option, n);
      }
      FlatEmpty(q, |segs|);
      OptPartsConcat(segs, |segs|, n);
    }
    OptionOfSegment(c, osName, s, 0);
  }

  /** The command starts with `python -m nuitka`, the quoted entry file and the
      output directory. */
  lemma CommandHead(c: NuitkaCompiler, osName: string, s: NuitkaSettings)
    ensures var sep := Sep(osName);
      |NuitkaParts(c, osName, s)| >= 3 &&
      NuitkaParts(c, osName, s)[..3] == ["python -m nuitka", Quote(EntryPath(c, osName)),
                                        Assign(NuitkaOptions[1], Quote(Render(c.outputDir, sep)))]
  {
    var sep := Sep(osName);
    var segs := NuitkaSegments(c, osName, s);
    var q := PartsOf(segs);
    ConcatFlat(segs, |segs|);
    FlatPrefix(q, 2, |segs|);
    FirstParts(c, osName, s);
    assert Flat(q, 2) == Flat(q, 1) + q[1] == [] + q[0] + q[1];
  }

  /** The parts of the first two steps. */
  lemma FirstParts(c: NuitkaCompiler, osName: string, s: NuitkaSettings)
    ensures var sep := Sep(osName);
      var q := PartsOf(NuitkaSegments(c, osName, s));
      && q[0] == ["python -m nuitka", Quote(EntryPath(c, osName))]
      && q[1] == [Assign(NuitkaOptions[1], Quote(Render(c.outputDir, sep)))]
  {
  }

  /** The options the boolean settings switch on, in the order of `BoolValues`. */
  const BoolOptions: seq<string> := [
    NuitkaOptions[2], NuitkaOptions[3], NuitkaOptions[4], NuitkaOptions[5], NuitkaOptions[20],
    NuitkaOptions[21], NuitkaOptions[22], NuitkaOptions[23], NuitkaOptions[25]]

  /** The steps of the boolean settings, in the order of `BoolValues`. */
  const BoolSteps: seq<nat> := [2, 3, 4, 5, 20, 21, 22, 23, 25]

  /** The `i`-th boolean setting is the flag step for the `i`-th boolean option. */
  lemma FlagSegment(c: NuitkaCompiler, osName: string, s: NuitkaSettings, i: nat)
    requires i < |BoolSteps|
    ensures BoolSteps[i] < |NuitkaOptions|
    ensures NuitkaSegment(c, osName, s, BoolSteps[i]) == Flag(BoolValues(s)[i], BoolOptions[i])
  {
  }

  /** A boolean setting adds its bare option exactly once when true and never otherwise. */
  lemma BooleanOptions(c: NuitkaCompiler, osName: string, s: NuitkaSettings, i: nat)
    requires i < |BoolOptions|
    ensures GetBoolean(BoolValues(s)[i]) == Ok(true) ==>
      OptParts(NuitkaParts(c, osName, s), BoolOptions[i]) == [Switch(BoolOptions[i])]
    ensures GetBoolean(BoolValues(s)[i]) != Ok(true) ==> OptParts(NuitkaParts(c, osName, s), BoolOptions[i]) == []
  {
    FlagSegment(c, osName, s, i);
    OptionOfSegment(c, osName, s, BoolSteps[i]);
  }

  /** Each version-information setting adds `--<key with dashes>="<value>"` when
      it is not empty. */
  lemma VersionInfoOptions(c: NuitkaCompiler, osName: string, s: NuitkaSettings, i: nat)
    requires i < |VersionKeys|
    ensures var v := VersionValues(s)[i]; var o := ReplaceChar(VersionKeys[i], '_', '-');
      v != "" ==> OptParts(NuitkaParts(c, osName, s), o) == [Assign(o, Quote(v))]
    ensures var v := VersionValues(s)[i]; var o := ReplaceChar(VersionKeys[i], '_', '-');
      v == "" ==> OptParts(NuitkaParts(c, osName, s), o) == []
  {
    VersionSegment(c, osName, s, i);
    OptionOfSegment(c, osName, s, 9 + i);
  }

  /** The comma-separated settings with their options. */
  function ListedValues(s: NuitkaSettings): seq<(string, string)> {
    [(s.includePackageData, NuitkaOptions[15]), (s.includeDataFiles, NuitkaOptions[16]),
     (s.noincludeDlls, NuitkaOptions[17]), (s.pythonFlag, NuitkaOptions[24])]
  }

  /** The steps of the comma-separated settings, in the order of `ListedValues`. */
  const ListedSteps: seq<nat> := [15, 16, 17, 24]

  lemma ListedSegment(c: NuitkaCompiler, osName: string, s: NuitkaSettings, i: nat)
    requires i < |ListedSteps|
    ensures ListedSteps[i] < |NuitkaOptions|
    ensures NuitkaSegment(c, osName, s, ListedSteps[i]) == Listed(ListedValues(s)[i].0, ListedValues(s)[i].1)
  {
  }

  /** A comma-separated setting adds one `--<option>=<piece>` per non-empty piece, in order. */
  lemma ListedOptions(c: NuitkaCompiler, osName: string, s: NuitkaSettings, i: nat)
    requires i < |ListedSteps|
    ensures var (value, option) := ListedValues(s)[i];
      var pieces := NonEmpty(Split(value, ','));
      var ps := OptParts(NuitkaParts(c, osName, s), option);
      && |ps| == |pieces|
      && forall j :: 0 <= j < |ps| ==> ps[j] == Assign(option, pieces[j])
  {
    ListedSegment(c, osName, s, i);
    OptionOfSegment(c, osName, s, ListedSteps[i]);
  }

  /** The pieces are non-empty, hold no comma, and when the setting has no empty
      piece they join back into it. */
  lemma CommaPieces(value: string)
    ensures forall p :: p in NonEmpty(Split(value, ',')) ==> p != "" && ',' !in p
    ensures (forall p :: p in Split(value, ',') ==> p != "") ==> Join(",", NonEmpty(Split(value, ','))) == value
  {
    var pieces := Split(value, ',');
    NonEmptyMembers(pieces);
    if forall p :: p in pieces ==> p != "" {
      NonEmptyOfFull(pieces);
      JoinSplit(value, ',');
    }
  }

  lemma {:induction false} NonEmptyOfFull(parts: seq<string>)
    requires forall p :: p in parts ==> p != ""
    ensures NonEmpty(parts) == parts
  {
    if parts != [] {
      var init := parts[..|parts| - 1];
      assert forall p :: p in init ==> p in parts;
      NonEmptyOfFull(init);
      assert parts[|parts| - 1] in parts;
      assert NonEmpty(parts) == NonEmpty(init) + [parts[|parts| - 1]];
      assert parts == init + [parts[|parts| - 1]];
    }
  }

  /** The icon and the console mode are passed on Windows only; the console mode
      only when it is one of the four values Nuitka accepts. */
  lemma WindowsOptions(c: NuitkaCompiler, osName: string, s: NuitkaSettings)
    ensures var p := NuitkaParts(c, osName, s);
      osName == "nt" && s.windowsIcon != "" ==> OptParts(p, NuitkaOptions[7]) == [Assign(NuitkaOptions[7], Quote(s.windowsIcon))]
    ensures var p := NuitkaParts(c, osName, s);
      !(osName == "nt" && s.windowsIcon != "") ==> OptParts(p, NuitkaOptions[7]) == []
    ensures var p := NuitkaParts(c, osName, s); var mode := s.windowsConsoleMode;
      osName == "nt" && mode in ConsoleModes ==> OptParts(p, NuitkaOptions[8]) == [Assign(NuitkaOptions[8], mode)]
    ensures var p := NuitkaParts(c, osName, s);
      !(osName == "nt" && s.windowsConsoleMode in ConsoleModes) ==> OptParts(p, NuitkaOptions[8]) == []
  {
    OptionOfSegment(c, osName, s, 7);
    OptionOfSegment(c, osName, s, 8);
  }

  /** `jobs` and `lto` are passed unless `auto`. */
  lemma UnlessAutoOptions(c: NuitkaCompiler, osName: string, s: NuitkaSettings)
    ensures var p := NuitkaParts(c, osName, s);
      s.jobs != "auto" ==> OptParts(p, NuitkaOptions[18]) == [Assign(NuitkaOptions[18], s.jobs)]
    ensures s.jobs == "auto" ==> OptParts(NuitkaParts(c, osName, s), NuitkaOptions[18]) == []
    ensures var p := NuitkaParts(c, osName, s);
      s.lto != "auto" ==> OptParts(p, NuitkaOptions[19]) == [Assign(NuitkaOptions[19], s.lto)]
    ensures s.lto == "auto" ==> OptParts(NuitkaParts(c, osName, s), NuitkaOptions[19]) == []
  {
    OptionOfSegment(c, osName, s, 18);
    OptionOfSegment(c, osName, s, 19);
  }

  /** The module-name choice is passed unless empty, and the output directory always. */
  lemma ValuedOptions(c: NuitkaCompiler, osName: string, s: NuitkaSettings)
    ensures var p := NuitkaParts(c, osName, s);
      s.moduleNameChoice != "" ==> OptParts(p, NuitkaOptions[6]) == [Assign(NuitkaOptions[6], s.moduleNameChoice)]
    ensures s.moduleNameChoice == "" ==> OptParts(NuitkaParts(c, osName, s), NuitkaOptions[6]) == []
    ensures OptParts(NuitkaParts(c, osName, s), NuitkaOptions[1]) == [Assign(NuitkaOptions[1], Quote(Render(c.outputDir, Sep(osName))))]
  {
    OptionOfSegment(c, osName, s, 1);
    OptionOfSegment(c, osName, s, 6);
  }

  /** Building fails exactly when a boolean setting is not a boolean word, and
      the error carries the text of the first such setting. */
  lemma CommandFailsOnlyOnBooleans(c: NuitkaCompiler, osName: string, s: NuitkaSettings)
    ensures CommandFor(c, osName, s).Err? <==>
      exists i :: 0 <= i < |BoolValues(s)| && GetBoolean(BoolValues(s)[i]).Err?
    ensures CommandFor(c, osName, s).Err? ==>
      exists i :: 0 <= i < |BoolValues(s)| && CommandFor(c, osName, s).error == NotABoolean(BoolValues(s)[i])
        && GetBoolean(BoolValues(s)[i]).Err?
        && forall j :: 0 <= j < i ==> GetBoolean(BoolValues(s)[j]).Ok?
  {
    BoolErrorFirst(s);
    FirstErrorSpec(BoolValues(s));
  }

  /** The error of the first value `getboolean` refuses, if any. */
  function FirstError(bs: seq<string>): Option<Error> {
    if bs == [] then None
    else if GetBoolean(bs[0]).Err? then Some(NotABoolean(bs[0]))
    else FirstError(bs[1..])
  }

  lemma {:induction false} FirstErrorSpec(bs: seq<string>)
    ensures FirstError(bs).Some? <==> exists i :: 0 <= i < |bs| && GetBoolean(bs[i]).Err?
    ensures FirstError(bs).Some? ==>
      exists i :: 0 <= i < |bs| && FirstError(bs).value == NotABoolean(bs[i]) && GetBoolean(bs[i]).Err?
        && forall j :: 0 <= j < i ==> GetBoolean(bs[j]).Ok?
  {
    if bs != [] && GetBoolean(bs[0]).Ok? {
      var rest := bs[1..];
      FirstErrorSpec(rest);
      assert forall i :: 1 <= i < |bs| ==> bs[i] == rest[i - 1];
      if FirstError(rest).Some? {
        var i :| 0 <= i < |rest| && FirstError(rest).value == NotABoolean(rest[i]) && GetBoolean(rest[i]).Err?
          && forall j :: 0 <= j < i ==> GetBoolean(rest[j]).Ok?;
        assert forall j :: 0 <= j < i + 1 ==> GetBoolean(bs[j]).Ok? by {
          forall j | 0 <= j < i + 1 ensures GetBoolean(bs[j]).Ok? {
            if j > 0 { assert bs[j] == rest[j - 1]; }
          }
        }
        assert bs[i + 1] == rest[i];
      } else {
        assert forall i :: 0 <= i < |bs| ==> GetBoolean(bs[i]).Ok? by {
          forall i | 0 <= i < |bs| ensures GetBoolean(bs[i]).Ok? {
            if i > 0 { assert bs[i] == rest[i - 1]; }
          }
        }
      }
    }
  }

  /** The builder reports the first refused boolean in the order it reads them. */
  lemma BoolErrorFirst(s: NuitkaSettings)
    ensures BoolError(s) == FirstError(BoolValues(s))
  {
    var bs := BoolValues(s);
    assert bs[0..][1..] == bs[1..];
    assert bs[1..][1..] == bs[2..];
    assert bs[2..][1..] == bs[3..];
    assert bs[3..][1..] == bs[4..];
    assert bs[4..][1..] == bs[5..];
    assert bs[5..][1..] == bs[6..];
    assert bs[6..][1..] == bs[7..];
    assert bs[7..][1..] == bs[8..];
    assert bs[8..][1..] == bs[9..];
    assert FirstError(bs[9..]) == None;
    assert FirstError(bs[8..]) == if GetBoolean(bs[8]).Err? then Some(NotABoolean(bs[8])) else FirstError(bs[9..]);
    assert FirstError(bs[7..]) == if GetBoolean(bs[7]).Err? then Some(NotABoolean(bs[7])) else FirstError(bs[8..]);
    assert FirstError(bs[6..]) == if GetBoolean(bs[6]).Err? then Some(NotABoolean(bs[6])) else FirstError(bs[7..]);
    assert FirstError(bs[5..]) == if GetBoolean(bs[5]).Err? then Some(NotABoolean(bs[5])) else FirstError(bs[6..]);
    assert FirstError(bs[4..]) == if GetBoolean(bs[4]).Err? then Some(NotABoolean(bs[4])) else FirstError(bs[5..]);
    assert FirstError(bs[3..]) == if GetBoolean(bs[3]).Err? then Some(NotABoolean(bs[3])) else FirstError(bs[4..]);
    assert FirstError(bs[2..]) == if GetBoolean(bs[2]).Err? then Some(NotABoolean(bs[2])) else FirstError(bs[3..]);
    assert FirstError(bs[1..]) == if GetBoolean(bs[1]).Err? then Some(NotABoolean(bs[1])) else FirstError(bs[2..]);
    assert FirstError(bs[0..]) == if GetBoolean(bs[0]).Err? then Some(NotABoolean(bs[0])) else FirstError(bs[1..]);
    assert bs[0..] == bs;
  }

  /** The configured `output_dir` does not change the command. */
  lemma OutputDirSettingIgnored(c: NuitkaCompiler, osName: string, s: NuitkaSettings, other: string)
    ensures CommandFor(c, osName, s) == CommandFor(c, osName, s.(outputDir := other))
  {
    assert NuitkaSegments(c, osName, s) == NuitkaSegments(c, osName, s.(outputDir := other));
  }
}
