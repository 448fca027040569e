/** `Obfuscate_js.py`: every JavaScript file of a project is passed through
    `javascript-obfuscator` into a mirror of the project under `dist`, with every
    `Obfuscator` setting given as an option. */
module JsObfuscator {
  import opened Wrappers
  import opened Strings
  import opened Paths
  import opened Config
  import opened Sequences
  import Batch

  /** `ObfuscatorConfig.DEFAULT_CONFIG` of `Obfuscate_js.py`. */
  const JsDefaults: Table := [
    Section("General", [
      Entry("clean_temp", "true"),
      Entry("confirm_before_process", "true")]),
    Section("Obfuscator", [
      Entry("compact", "true"),
      Entry("control-flow-flattening", "true"),
      Entry("control-flow-flattening-threshold", "0.75"),
      Entry("dead-code-injection", "true"),
      Entry("dead-code-injection-threshold", "0.4"),
      Entry("string-array", "true"),
      Entry("string-array-threshold", "0.75"),
      Entry("unicode-escape-sequence", "true")])
  ]

  /** The defaults have both sections, with distinct keys, and ask for confirmation. */
  lemma DefaultsWellFormed()
    ensures WellFormed(JsDefaults)
    ensures SectionOf(JsDefaults, "Obfuscator") == Some(JsDefaults[1].entries)
    ensures Get(Entries(JsDefaults, "General"), "confirm_before_process") == Some("true")
  {
    ObfuscatorKeysDistinct();
    assert KeyList(JsDefaults[0].entries) == ["clean_temp", "confirm_before_process"];
    UniqueGet(JsDefaults[0].entries, 1);
  }

  /** The keys of the `Obfuscator` section of the defaults, in order. */
  const ObfuscatorKeys: seq<string> := [
    "compact", "control-flow-flattening", "control-flow-flattening-threshold", "dead-code-injection",
    "dead-code-injection-threshold", "string-array", "string-array-threshold", "unicode-escape-sequence"]

  lemma ObfuscatorKeysDistinct()
    ensures UniqueKeys(JsDefaults[1].entries)
  {
    ObfuscatorKeyList();
    ObfuscatorKeyNamesDistinct();
  }

  lemma ObfuscatorKeyList()
    ensures KeyList(JsDefaults[1].entries) == ObfuscatorKeys
  {
  }

  lemma ObfuscatorKeyNamesDistinct()
    ensures forall i, j :: 0 <= i < j < |ObfuscatorKeys| ==> ObfuscatorKeys[i] != ObfuscatorKeys[j]
  {
  }

  /** A `JSObfuscator` after `__init__`. */
  datatype JsObfuscator = JsObfuscator(projectPath: Path, outputDir: Path, config: Table)

  /** `JSObfuscator.__init__`: the existence test on the path as given (the
      file system's answer is `present`) and the output directory `dist` inside
      the absolute project path. */
  function NewJsObfuscator(projectPath: string, config: Table, present: bool, cwd: Path): (r: Result<JsObfuscator>)
    requires Normal(cwd)
    ensures r.Err? <==> !present
    ensures r.Err? ==> r.error == ProjectPathMissing(projectPath)
    ensures r.Ok? ==> r.value.projectPath == AbsPath(projectPath, cwd) && r.value.config == config
    ensures r.Ok? ==> Normal(r.value.outputDir) && Parent(r.value.outputDir) == r.value.projectPath
    ensures r.Ok? ==> Name(r.value.outputDir) == "dist"
  {
    if !present then Err(ProjectPathMissing(projectPath))
    else
      var abs := AbsPath(projectPath, cwd);
      assert Parent(abs + ["dist"]) == abs;
      Ok(JsObfuscator(abs, abs + ["dist"], config))
  }

  // ---------------------------------------------------------------------------
  // Collecting the files

  /** The directories `collect_js_files` does not descend into. */
  const JsExcludedDirs: set<string> := {"node_modules", "dist", ".git", ".svn"}

  predicate IsJs(e: WalkEntry) {
    EndsWith(e.name, ".js")
  }

  /** `collect_js_files` over the listing `walk` of the project. */
  method CollectJsFiles(j: JsObfuscator, walk: seq<WalkEntry>) returns (files: seq<Path>)
    ensures files == Map(Kept(walk, j.projectPath, JsExcludedDirs, IsJs), FullPath)
  {
    var kept := Traverse(walk, j.projectPath, JsExcludedDirs, IsJs);
    files := Map(kept, FullPath);
  }

  /** A listed file is collected exactly when its name ends in `.js` and no
      directory named `node_modules`, `dist`, `.git` or `.svn` lies between the
      project and the file. */
  lemma JsFilesSelected(j: JsObfuscator, walk: seq<WalkEntry>, e: WalkEntry)
    requires e in walk
    ensures FullPath(e) in Map(Kept(walk, j.projectPath, JsExcludedDirs, IsJs), FullPath) <==>
      EndsWith(e.name, ".js") && !Pruned(j.projectPath, e, JsExcludedDirs)
  {
    KeptPaths(walk, j.projectPath, JsExcludedDirs, IsJs, e);
  }

  // ---------------------------------------------------------------------------
  // The obfuscator settings

  /** A value of `create_obfuscator_config`: a boolean, a number (kept as the
      text `float` reads), or the text itself. */
  datatype Setting = Flag(on: bool) | Number(text: string) | Text(text: string)

  /** What `value.replace('.', '').isdigit()` accepts. */
  predicate LooksNumeric(v: string) {
    IsDigits(DeleteChar(v, '.'))
  }

  /** What `float` accepts among the texts `LooksNumeric` lets through: at most one dot. */
  predicate IsDecimal(v: string) {
    LooksNumeric(v) && Occurrences(v, '.') <= 1
  }

  /** One step of `create_obfuscator_config` as written: `true` and `false` in
      any case are booleans, and a text that is digits once its dots are removed
      goes to `float`, which refuses more than one dot. */
  function ClassifyAsWritten(v: string): (r: Result<Setting>)
    ensures r.Err? ==> r.error == NotAFloat(v) && LooksNumeric(v) && Occurrences(v, '.') > 1
  {
    if Lower(v) == "true" || Lower(v) == "false" then Ok(Flag(Lower(v) == "true"))
    else if LooksNumeric(v) then
      if Occurrences(v, '.') <= 1 then Ok(Number(v)) else Err(NotAFloat(v))
    else Ok(Text(v))
  }

  /** A version-like value such as `1.2.3` passes the digit test and then makes
      `float` fail, so the whole run stops on it. */
  lemma ClassifyAsWrittenFails()
    ensures ClassifyAsWritten("1.2.3") == Err(NotAFloat("1.2.3"))
  {
    assert DeleteChar("1.2.3", '.') == "123";
    assert Occurrences("1.2.3", '.') == 2;
    assert Lower("1.2.3") == "1.2.3";
  }

  /** The classification with the evident intent: a value is a number only when
      `float` accepts it, and stays text otherwise. */
  function Classify(v: string): (r: Setting)
    ensures r.Flag? <==> Lower(v) == "true" || Lower(v) == "false"
    ensures r.Flag? ==> (r.on <==> Lower(v) == "true")
    ensures r.Number? <==> !r.Flag? && IsDecimal(v)
    ensures r.Number? || r.Text? ==> r.text == v
  {
    if Lower(v) == "true" || Lower(v) == "false" then Flag(Lower(v) == "true")
    else if IsDecimal(v) then Number(v)
    else Text(v)
  }

  /** The corrected classification agrees with the written one wherever that
      succeeds, and keeps the text where that fails; it fails exactly on values
      with more than one dot that are digits otherwise. */
  lemma ClassifyCorrects(v: string)
    ensures ClassifyAsWritten(v).Ok? ==> ClassifyAsWritten(v) == Ok(Classify(v))
    ensures ClassifyAsWritten(v).Err? ==> Classify(v) == Text(v)
    ensures ClassifyAsWritten(v).Err? <==>
      Lower(v) != "true" && Lower(v) != "false" && LooksNumeric(v) && Occurrences(v, '.') > 1
  {
  }

  /** A number has at least one digit and at most one dot, and nothing else. */
  lemma NumberShape(v: string)
    requires Classify(v).Number?
    ensures exists i :: 0 <= i < |v| && '0' <= v[i] <= '9'
    ensures forall c :: c in v ==> c == '.' || '0' <= c <= '9'
    ensures Occurrences(v, '.') <= 1
  {
    var d := DeleteChar(v, '.');
    assert d[0] in d;
    forall c | c in v ensures c == '.' || '0' <= c <= '9' {
      if c != '.' {
        assert c in d;
        var k :| 0 <= k < |d| && d[k] == c;
      }
    }
    assert d[0] in v;
    var i :| 0 <= i < |v| && v[i] == d[0];
  }

  function ClassifyEntry(e: Entry): (string, Setting) {
    (e.key, Classify(e.value))
  }

  /** `create_obfuscator_config`: each `Obfuscator` key with its classified
      value, in configuration order. */
  method CreateObfuscatorConfig(j: JsObfuscator) returns (settings: seq<(string, Setting)>)
    requires SectionOf(j.config, "Obfuscator").Some?
    ensures var sec := Entries(j.config, "Obfuscator");
      && |settings| == |sec|
      && forall i :: 0 <= i < |sec| ==> settings[i].0 == sec[i].key && settings[i].1 == Classify(sec[i].value)
  {
    var sec := Entries(j.config, "Obfuscator");
    settings := [];
    for i := 0 to |sec|
      invariant settings == Map(sec[..i], ClassifyEntry)
    {
      MapSnoc(sec, i, ClassifyEntry);
      settings := settings + [ClassifyEntry(sec[i])];
    }
    assert sec[..|sec|] == sec;
  }

  /** The value at `k` is the first that `create_obfuscator_config` as written refuses. */
  predicate FirstRefused(sec: seq<Entry>, k: nat) {
    && k < |sec| && ClassifyAsWritten(sec[k].value).Err?
    && forall i :: 0 <= i < k ==> ClassifyAsWritten(sec[i].value).Ok?
  }

  /** `create_obfuscator_config` as written: `float` raises on the first value
      with several dots that is digits otherwise, and the dictionary is never
      returned; when no value is refused, the settings are the corrected ones. */
  method CreateObfuscatorConfigAsWritten(j: JsObfuscator) returns (r: Result<seq<(string, Setting)>>)
    requires SectionOf(j.config, "Obfuscator").Some?
    ensures var sec := Entries(j.config, "Obfuscator");
      && (r.Ok? <==> forall i :: 0 <= i < |sec| ==> ClassifyAsWritten(sec[i].value).Ok?)
      && (r.Ok? ==> r.value == Map(sec, ClassifyEntry))
      && (forall k: nat :: FirstRefused(sec, k) ==> r == Err(NotAFloat(sec[k].value)))
  {
    var sec := Entries(j.config, "Obfuscator");
    var settings := [];
    for i := 0 to |sec|
      invariant settings == Map(sec[..i], ClassifyEntry)
      invariant forall k :: 0 <= k < i ==> ClassifyAsWritten(sec[k].value).Ok?
    {
      var v := ClassifyAsWritten(sec[i].value);
      if v.Err? {
        assert FirstRefused(sec, i);
        return Err(v.error);
      }
      ClassifyCorrects(sec[i].value);
      MapSnoc(sec, i, ClassifyEntry);
      settings := settings + [(sec[i].key, v.value)];
    }
    assert sec[..|sec|] == sec;
    r := Ok(settings);
    forall k: nat | k < |sec| ensures !FirstRefused(sec, k) {
      assert ClassifyAsWritten(sec[k].value).Ok?;
    }
  }

  /** The default switches are on and the default thresholds are numbers. */
  lemma DefaultsClassified()
    ensures Classify("true") == Flag(true)
    ensures Classify("0.75") == Number("0.75") && Classify("0.4") == Number("0.4")
  {
    TrueIsFlag();
    DecimalIsNumber("0", "75");
    DecimalIsNumber("0", "4");
    assert "0" + "." + "75" == "0.75";
    assert "0" + "." + "4" == "0.4";
  }

  lemma TrueIsFlag()
    ensures Classify("true") == Flag(true)
  {
    assert Lower("true") == "true";
  }

  /** Digits, a dot and digits make a number. */
  lemma DecimalIsNumber(whole: string, fraction: string)
    requires IsDigits(whole) && IsDigits(fraction)
    ensures Classify(whole + "." + fraction) == Number(whole + "." + fraction)
  {
    var v := whole + "." + fraction;
    DecimalText(whole, fraction);
    DotNotBoolean(v, |whole|);
  }

  lemma DecimalText(whole: string, fraction: string)
    requires IsDigits(whole) && IsDigits(fraction)
    ensures IsDecimal(whole + "." + fraction) && (whole + "." + fraction)[|whole|] == '.'
  {
    assert '.' !in whole && '.' !in fraction;
    WithoutChar(whole, '.');
    WithoutChar(fraction, '.');
    DeleteCharAppend(whole + ".", fraction, '.');
    DeleteCharAppend(whole, ".", '.');
    OccurrencesAppend(whole + ".", fraction, '.');
    OccurrencesAppend(whole, ".", '.');
    assert DeleteChar(".", '.') == "";
    assert Occurrences(".", '.') == 1;
  }

  /** A text with a dot is no boolean word. */
  lemma DotNotBoolean(v: string, i: nat)
    requires i < |v| && v[i] == '.'
    ensures Lower(v) != "true" && Lower(v) != "false"
  {
    assert Lower(v)[i] == '.';
    assert '.' !in "true" && '.' !in "false";
  }

  // ---------------------------------------------------------------------------
  // The options passed to the tool

  /** `str(v).lower()`: `floatRepr` is Python's `str` of the float `float` reads from a text. */
  function SettingText(s: Setting, floatRepr: string -> string): string {
    match s
    case Flag(on) => if on then "true" else "false"
    case Number(text) => Lower(floatRepr(text))
    case Text(text) => Lower(text)
  }

  /** `--<key> <value>`, the key as configured. */
  function OptionOf(floatRepr: string -> string): ((string, Setting)) -> string {
    (kv: (string, Setting)) => "--" + kv.0 + " " + SettingText(kv.1, floatRepr)
  }

  /** The `config_str` of `obfuscate_file`, one option per setting. */
  function OptionParts(settings: seq<(string, Setting)>, floatRepr: string -> string): seq<string> {
    Map(settings, OptionOf(floatRepr))
  }

  function OptionString(settings: seq<(string, Setting)>, floatRepr: string -> string): string {
    Join(" ", OptionParts(settings, floatRepr))
  }

  /** Unlike the HTML minifier, every setting is passed, off or on, under its
      own key: a switch that is off is passed as `false`. */
  lemma OptionsOfSettings(sec: seq<Entry>, floatRepr: string -> string)
    ensures var parts := OptionParts(Map(sec, ClassifyEntry), floatRepr);
      && |parts| == |sec|
      && (forall i :: 0 <= i < |sec| ==> StartsWith(parts[i], "--" + sec[i].key + " "))
      && (forall i :: 0 <= i < |sec| && Lower(sec[i].value) == "false" ==> parts[i] == "--" + sec[i].key + " false")
      && (forall i :: 0 <= i < |sec| && Lower(sec[i].value) == "true" ==> parts[i] == "--" + sec[i].key + " true")
  {
    var parts := OptionParts(Map(sec, ClassifyEntry), floatRepr);
    forall i | 0 <= i < |sec| ensures StartsWith(parts[i], "--" + sec[i].key + " ") {
      var head := "--" + sec[i].key + " ";
      assert parts[i] == head + SettingText(Classify(sec[i].value), floatRepr);
      assert parts[i][..|head|] == head;
    }
  }

  /** The option for the `i`-th setting of a section. */
  lemma OptionAt(sec: seq<Entry>, i: nat, floatRepr: string -> string)
    requires i < |sec|
    ensures OptionParts(Map(sec, ClassifyEntry), floatRepr)[i] ==
      "--" + sec[i].key + " " + SettingText(Classify(sec[i].value), floatRepr)
  {
  }

  // ---------------------------------------------------------------------------
  // Output paths and the run

  /** The `output_path` of `obfuscate_file`: the file's place in a mirror of the project at `output_dir`. */
  function OutputPath(j: JsObfuscator, file: Path): (r: Path)
    ensures IsPrefix(j.outputDir, r) && |r| > |j.outputDir|
  {
    Mirror(file, j.projectPath, j.outputDir)
  }

  /** A file below the project is written to the same relative place below
      `dist`, and no two files below the project share one. */
  lemma OutputsMirror(j: JsObfuscator, f: Path, g: Path)
    requires j.outputDir == j.projectPath + ["dist"]
    requires IsPrefix(j.projectPath, f) && |f| > |j.projectPath|
    requires IsPrefix(j.projectPath, g) && |g| > |j.projectPath|
    ensures OutputPath(j, f) == j.projectPath + ["dist"] + f[|j.projectPath|..]
    ensures OutputPath(j, f) == OutputPath(j, g) ==> f == g
  {
    if OutputPath(j, f) == OutputPath(j, g) {
      MirrorInjective(f, g, j.projectPath, j.outputDir);
    }
  }

  /** An output is never collected as an input: it lies under `dist`, which the walk prunes. */
  lemma OutputsNotCollected(j: JsObfuscator, f: Path, e: WalkEntry)
    requires j.outputDir == j.projectPath + ["dist"]
    requires IsPrefix(j.projectPath, f) && |f| > |j.projectPath|
    requires FullPath(e) == OutputPath(j, f)
    ensures Pruned(j.projectPath, e, JsExcludedDirs)
  {
    var n := |j.projectPath|;
    assert FullPath(e)[n] == "dist";
    assert e.dir[n] == "dist";
  }

  /** `process_project` on the listing `walk`: the success count of the
      obfuscator (`step`) over the collected files. */
  method ProcessProject(j: JsObfuscator, walk: seq<WalkEntry>, answer: string, step: Path -> bool)
    returns (r: Result<Batch.Outcome>)
    requires SectionOf(j.config, "General").Some? && Get(Entries(j.config, "General"), "confirm_before_process").Some?
    ensures var confirm := Value(Entries(j.config, "General"), "confirm_before_process");
      var files := Map(Kept(walk, j.projectPath, JsExcludedDirs, IsJs), FullPath);
      var proceed := GetBoolean(confirm) == Ok(false) || (GetBoolean(confirm) == Ok(true) && Lower(answer) == "y");
      && (GetBoolean(confirm).Err? ==> r == Err(NotABoolean(confirm)))
      && (GetBoolean(confirm) == Ok(true) && Lower(answer) != "y" ==> r == Ok(Batch.Cancelled))
      && (proceed && files == [] ==> r == Ok(Batch.NoFiles))
      && (proceed && files != [] ==> r == Ok(Batch.Finished(|Filter(files, step)|, |files|)))
      && (r.Ok? && r.value.Finished? ==> r.value.successes <= r.value.total == |files|)
  {
    var confirm := Value(Entries(j.config, "General"), "confirm_before_process");
    var files := CollectJsFiles(j, walk);
    r := Batch.ProcessProject(confirm, answer, files, step);
    Batch.CountBounds(files, step);
  }

  /** `process_project` as written: the first `obfuscate_file` call builds the
      settings with `create_obfuscator_config` as written, so a value that
      `float` refuses ends the whole run with that error before any file is
      obfuscated; otherwise the run is the corrected one. */
  method ProcessProjectAsWritten(j: JsObfuscator, walk: seq<WalkEntry>, answer: string, step: Path -> bool)
    returns (r: Result<Batch.Outcome>)
    requires SectionOf(j.config, "General").Some? && Get(Entries(j.config, "General"), "confirm_before_process").Some?
    requires SectionOf(j.config, "Obfuscator").Some?
    ensures var confirm := Value(Entries(j.config, "General"), "confirm_before_process");
      var files := Map(Kept(walk, j.projectPath, JsExcludedDirs, IsJs), FullPath);
      var sec := Entries(j.config, "Obfuscator");
      var accepted := forall i :: 0 <= i < |sec| ==> ClassifyAsWritten(sec[i].value).Ok?;
      var proceed := GetBoolean(confirm) == Ok(false) || (GetBoolean(confirm) == Ok(true) && Lower(answer) == "y");
      && (GetBoolean(confirm).Err? ==> r == Err(NotABoolean(confirm)))
      && (GetBoolean(confirm) == Ok(true) && Lower(answer) != "y" ==> r == Ok(Batch.Cancelled))
      && (proceed && files == [] ==> r == Ok(Batch.NoFiles))
      && (proceed && files != [] ==> forall k: nat :: FirstRefused(sec, k) ==> r == Err(NotAFloat(sec[k].value)))
      && (proceed && files != [] && accepted ==> r == Ok(Batch.Finished(|Filter(files, step)|, |files|)))
  {
    var confirm := Value(Entries(j.config, "General"), "confirm_before_process");
    var ask := GetBoolean(confirm);
    var files := CollectJsFiles(j, walk);
    if ask.Ok? && (!ask.value || Lower(answer) == "y") && files != [] {
      var settings := CreateObfuscatorConfigAsWritten(j);
      if settings.Err? {
        return Err(settings.error);
      }
    }
    r := ProcessProject(j, walk, answer, step);
  }

  /** Run as written on a project with a JavaScript file, the version-like
      value `1.2.3` as the first `Obfuscator` setting stops the run with
      `float`'s error, whatever the obfuscator would have done. */
  lemma ProcessProjectAsWrittenStops(sec: seq<Entry>)
    requires |sec| > 0 && sec[0].value == "1.2.3"
    ensures FirstRefused(sec, 0)
  {
    ClassifyAsWrittenFails();
  }
}
