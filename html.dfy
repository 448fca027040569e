/** `Compress_html.py`: every HTML file of a project is minified into a mirror
    of the project under `dist`, with the `Minifier` switches that are on. */
module HtmlMinifier {
  import opened Wrappers
  import opened Strings
  import opened Paths
  import opened Config
  import opened Sequences
  import Batch

  /** `ObfuscatorConfig.DEFAULT_CONFIG` of `Compress_html.py`. */
  const HtmlDefaults: Table := [
    Section("General", [
      Entry("clean_temp", "true"),
      Entry("confirm_before_process", "true")]),
    Section("Minifier", [
      Entry("collapse_whitespace", "true"),
      Entry("remove_comments", "true"),
      Entry("remove_empty_attributes", "true"),
      Entry("remove_optional_tags", "true"),
      Entry("remove_redundant_attributes", "true"),
      Entry("remove_script_type_attributes", "true"),
      Entry("remove_style_link_type_attributes", "true"),
      Entry("minify_css", "true"),
      Entry("minify_js", "true"),
      Entry("decode_entities", "true")])
  ]

  /** The defaults have both sections, with distinct keys, and ask for confirmation. */
  lemma DefaultsWellFormed()
    ensures WellFormed(HtmlDefaults)
    ensures SectionOf(HtmlDefaults, "Minifier") == Some(HtmlDefaults[1].entries)
    ensures Get(Entries(HtmlDefaults, "General"), "confirm_before_process") == Some("true")
  {
    MinifierKeysDistinct();
    assert KeyList(HtmlDefaults[0].entries) == ["clean_temp", "confirm_before_process"];
    UniqueGet(HtmlDefaults[0].entries, 1);
  }

  /** The keys of the `Minifier` section of the defaults, in order. */
  const MinifierKeys: seq<string> := [
    "collapse_whitespace", "remove_comments", "remove_empty_attributes", "remove_optional_tags",
    "remove_redundant_attributes", "remove_script_type_attributes", "remove_style_link_type_attributes",
    "minify_css", "minify_js", "decode_entities"]

  lemma MinifierKeysDistinct()
    ensures UniqueKeys(HtmlDefaults[1].entries)
  {
    MinifierKeyList();
    MinifierKeyNamesDistinct();
  }

  lemma MinifierKeyList()
    ensures KeyList(HtmlDefaults[1].entries) == MinifierKeys
  {
  }

  lemma MinifierKeyNamesDistinct()
    ensures forall i, j :: 0 <= i < j < |MinifierKeys| ==> MinifierKeys[i] != MinifierKeys[j]
  {
  }

  /** An `HTMLObfuscator` after `__init__`. */
  datatype HtmlObfuscator = HtmlObfuscator(projectPath: Path, outputDir: Path, config: Table)

  /** `HTMLObfuscator.__init__`: the existence test on the path as given (the
      file system's answer is `present`) and the output directory `dist` inside
      the absolute project path. */
  function NewHtmlObfuscator(projectPath: string, config: Table, present: bool, cwd: Path): (r: Result<HtmlObfuscator>)
    requires Normal(cwd)
    ensures r.Err? <==> !present
    ensures r.Err? ==> r.error == ProjectPathMissing(projectPath)
    ensures r.Ok? ==> r.value.projectPath == AbsPath(projectPath, cwd) && r.value.config == config
    ensures r.Ok? ==> Normal(r.value.outputDir) && Parent(r.value.outputDir) == r.value.projectPath
    ensures r.Ok? ==> Name(r.value.outputDir) == "dist"
  {
    if !present then Err(ProjectPathMissing(projectPath))
    else
      var abs := AbsPath(projectPath, cwd);
      assert Parent(abs + ["dist"]) == abs;
      Ok(HtmlObfuscator(abs, abs + ["dist"], config))
  }

  // ---------------------------------------------------------------------------
  // Collecting the files

  /** The directories `collect_html_files` does not descend into. */
  const HtmlExcludedDirs: set<string> := {"node_modules", "dist", ".git", ".svn"}

  predicate IsHtml(e: WalkEntry) {
    EndsWith(e.name, ".html") || EndsWith(e.name, ".htm")
  }

  /** `collect_html_files` over the listing `walk` of the project. */
  method CollectHtmlFiles(h: HtmlObfuscator, walk: seq<WalkEntry>) returns (files: seq<Path>)
    ensures files == Map(Kept(walk, h.projectPath, HtmlExcludedDirs, IsHtml), FullPath)
  {
    var kept := Traverse(walk, h.projectPath, HtmlExcludedDirs, IsHtml);
    files := Map(kept, FullPath);
  }

  /** A listed file is collected exactly when its name ends in `.html` or
      `.htm` and no directory named `node_modules`, `dist`, `.git` or `.svn`
      lies between the project and the file. */
  lemma HtmlFilesSelected(h: HtmlObfuscator, walk: seq<WalkEntry>, e: WalkEntry)
    requires e in walk
    ensures FullPath(e) in Map(Kept(walk, h.projectPath, HtmlExcludedDirs, IsHtml), FullPath) <==>
      (EndsWith(e.name, ".html") || EndsWith(e.name, ".htm")) && !Pruned(h.projectPath, e, HtmlExcludedDirs)
  {
    KeptPaths(walk, h.projectPath, HtmlExcludedDirs, IsHtml, e);
  }

  // ---------------------------------------------------------------------------
  // The minifier settings

  /** A setting is on when its value is `true` in any case; `yes` and `1` are off. */
  predicate IsOn(e: Entry) {
    Lower(e.value) == "true"
  }

  /** `create_minifier_config`: each `Minifier` key mapped to whether its setting is on. */
  method CreateMinifierConfig(h: HtmlObfuscator) returns (m: map<string, bool>)
    requires SectionOf(h.config, "Minifier").Some? && UniqueKeys(Entries(h.config, "Minifier"))
    ensures forall k :: k in m <==> Get(Entries(h.config, "Minifier"), k).Some?
    ensures forall k :: k in m ==> (m[k] <==> Lower(Value(Entries(h.config, "Minifier"), k)) == "true")
  {
    var sec := Entries(h.config, "Minifier");
    m := map[];
    for i := 0 to |sec|
      invariant forall k :: k in m <==> exists j :: 0 <= j < i && sec[j].key == k
      invariant forall j :: 0 <= j < i ==> sec[j].key in m && m[sec[j].key] == IsOn(sec[j])
    {
      m := m[sec[i].key := IsOn(sec[i])];
    }
    forall k | k in m ensures Get(sec, k).Some? && (m[k] <==> Lower(Value(sec, k)) == "true") {
      var j :| 0 <= j < |sec| && sec[j].key == k;
      UniqueGet(sec, j);
    }
  }

  /** Only `true`, in any case, switches a setting on. */
  lemma OnlyTrueIsOn()
    ensures IsOn(Entry("minify_css", "TRUE")) && IsOn(Entry("minify_css", "True"))
    ensures !IsOn(Entry("minify_css", "yes")) && !IsOn(Entry("minify_css", "1")) && !IsOn(Entry("minify_css", "on"))
  {
    assert Lower("TRUE") == "true";
    assert Lower("True") == "true";
  }

  /** `--<key with '_' replaced by '-'>`. */
  function Switch(e: Entry): string {
    "--" + ReplaceChar(e.key, '_', '-')
  }

  /** The `config_str` of `minify_file`: the switches of the settings that are
      on, in configuration order (the order the dictionary was filled in). */
  function FlagParts(sec: seq<Entry>): (r: seq<string>)
    ensures forall i :: 0 <= i < |r| ==> StartsWith(r[i], "--")
  {
    Map(Filter(sec, IsOn), Switch)
  }

  function FlagString(sec: seq<Entry>): string {
    Join(" ", FlagParts(sec))
  }

  /** A switch is given exactly for a setting that is on; no setting on, no switches. */
  lemma FlagsOfSettings(sec: seq<Entry>)
    ensures forall p :: p in FlagParts(sec) <==> exists e :: e in sec && IsOn(e) && p == Switch(e)
    ensures |FlagParts(sec)| <= |sec|
    ensures (forall i :: 0 <= i < |sec| ==> !IsOn(sec[i])) ==> FlagString(sec) == ""
  {
    var on := Filter(sec, IsOn);
    FilterMembers(sec, IsOn);
    forall p ensures p in FlagParts(sec) <==> exists e :: e in sec && IsOn(e) && p == Switch(e) {
      if p in FlagParts(sec) {
        var i :| 0 <= i < |on| && FlagParts(sec)[i] == p;
        assert on[i] in on;
      }
      if exists e :: e in sec && IsOn(e) && p == Switch(e) {
        var e :| e in sec && IsOn(e) && p == Switch(e);
        var i :| 0 <= i < |on| && on[i] == e;
        assert FlagParts(sec)[i] == p;
      }
    }
    if forall i :: 0 <= i < |sec| ==> !IsOn(sec[i]) {
      FilterUniform(sec, IsOn, false);
    }
  }

  /** A key with underscores becomes a switch with hyphens. */
  lemma SwitchHyphens(e: Entry)
    ensures |Switch(e)| == |e.key| + 2
    ensures forall i :: 0 <= i < |e.key| ==> Switch(e)[i + 2] == (if e.key[i] == '_' then '-' else e.key[i])
    ensures '_' !in Switch(e)
  {
  }

  // ---------------------------------------------------------------------------
  // Output paths and the run

  /** The `output_path` of `minify_file`: the file's place in a mirror of the project at `output_dir`. */
  function OutputPath(h: HtmlObfuscator, file: Path): (r: Path)
    ensures IsPrefix(h.outputDir, r) && |r| > |h.outputDir|
  {
    Mirror(file, h.projectPath, h.outputDir)
  }

  /** A file below the project is written to the same relative place below
      `dist`, and no two files below the project share one. */
  lemma OutputsMirror(h: HtmlObfuscator, f: Path, g: Path)
    requires h.outputDir == h.projectPath + ["dist"]
    requires IsPrefix(h.projectPath, f) && |f| > |h.projectPath|
    requires IsPrefix(h.projectPath, g) && |g| > |h.projectPath|
    ensures OutputPath(h, f) == h.projectPath + ["dist"] + f[|h.projectPath|..]
    ensures OutputPath(h, f) == OutputPath(h, g) ==> f == g
  {
    if OutputPath(h, f) == OutputPath(h, g) {
      MirrorInjective(f, g, h.projectPath, h.outputDir);
    }
  }

  /** An output is never collected as an input: it lies under `dist`, which the walk prunes. */
  lemma OutputsNotCollected(h: HtmlObfuscator, f: Path, e: WalkEntry)
    requires h.outputDir == h.projectPath + ["dist"]
    requires IsPrefix(h.projectPath, f) && |f| > |h.projectPath|
    requires FullPath(e) == OutputPath(h, f)
    ensures Pruned(h.projectPath, e, HtmlExcludedDirs)
  {
    var n := |h.projectPath|;
    assert FullPath(e)[n] == "dist";
    assert e.dir[n] == "dist";
  }

  /** `process_project` on the listing `walk`: the success count of the
      minifier (`step`) over the collected files. */
  method ProcessProject(h: HtmlObfuscator, walk: seq<WalkEntry>, answer: string, step: Path -> bool)
    returns (r: Result<Batch.Outcome>)
    requires SectionOf(h.config, "General").Some? && Get(Entries(h.config, "General"), "confirm_before_process").Some?
    ensures var confirm := Value(Entries(h.config, "General"), "confirm_before_process");
      var files := Map(Kept(walk, h.projectPath, HtmlExcludedDirs, IsHtml), FullPath);
      var proceed := GetBoolean(confirm) == Ok(false) || (GetBoolean(confirm) == Ok(true) && Lower(answer) == "y");
      && (GetBoolean(confirm).Err? ==> r == Err(NotABoolean(confirm)))
      && (GetBoolean(confirm) == Ok(true) && Lower(answer) != "y" ==> r == Ok(Batch.Cancelled))
      && (proceed && files == [] ==> r == Ok(Batch.NoFiles))
      && (proceed && files != [] ==> r == Ok(Batch.Finished(|Filter(files, step)|, |files|)))
      && (r.Ok? && r.value.Finished? ==> r.value.successes <= r.value.total == |files|)
  {
    var confirm := Value(Entries(h.config, "General"), "confirm_before_process");
    var files := CollectHtmlFiles(h, walk);
    r := Batch.ProcessProject(confirm, answer, files, step);
    Batch.CountBounds(files, step);
  }
}
