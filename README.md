# ProjectCompiler drivers, modelled in Dafny

ProjectCompiler is a set of Python drivers. Each one reads a configparser
table of settings, lets command-line arguments override it, and turns the
result into work for an outside tool:

- `Nuitka_py.py` builds a `python -m nuitka` command line;
- `Comp-Package_py.py` and `Compile.Python.py` copy a project's `.py` files
  into Cython `.pyx` files, name the extension modules and, in the first, list
  the resource files and compiled binaries for a PyInstaller spec;
- `Compress_html.py` minifies every HTML file of a project with
  `html-minifier-terser`;
- `Obfuscate_js.py` obfuscates every JavaScript file with
  `javascript-obfuscator`.

This project models the deterministic rules inside those drivers:

- the override of the configuration table;
- the Nuitka command builder;
- the path, name and compiler-settings derivations of the Cython/PyInstaller
  drivers;
- the file filters, flag encodings, output paths and success counters of the
  HTML and JavaScript drivers.

Paths are sequences of components. The first component of an absolute path is
the empty root component. A listing from `os.walk` is a sequence of
`(directory, file name)` entries. Every outside tool is a boolean oracle.
Operations that change state in the source are written as methods. This covers
the in-place table update (a `class` with `modifies`), the list and dictionary
building loops, the command builder's `append` chain and the success counter.
Each of these methods is tied to a specification function, and the lemmas are
proved about those functions.

Modules:

- `Wrappers`: `Option`, `Result` and the driver errors.
- `Strings`: ASCII `lower`, `replace`, `split`, `join` and `splitext`.
- `Sequences`: a generic filter, map and flatten.
- `Paths`: `abspath`, `relpath`, `pathlib` names, the walk listing with pruning,
  and mirroring.
- `Config`: sections, lookups, `getboolean`, `update_from_args` and
  `get_config_dict`.
- `Nuitka`: `Nuitka_py.py`.
- `Compiler`: `Comp-Package_py.py` and `Compile.Python.py`. Up to the Cython
  build the two files are the same, except for the `one_file` default: the
  configuration, the constructor, the compiler settings, the source collection,
  the Cython copies and the module names. `collect_resource_files` and the
  `binaries` list exist only in `Comp-Package_py.py`. The two files also differ
  in their Cython directives, in moving the compiled files back, in
  `compile_project` and in `cleanup`, none of which is modelled.
- `Batch`: the `process_project` loop that the HTML and JavaScript drivers
  share.
- `HtmlMinifier`: `Compress_html.py`.
- `JsObfuscator`: `Obfuscate_js.py`.

## Model

| member | source | states |
|---|---|---|
| Config.ConfigStore.UpdateFromArgs | Nuitka_py.py:65-70 | the new table is the old one with every `section.key` whose argument `section_key` is present and not `None` set to that argument's text |
| Config.Overridden | Nuitka_py.py:65-70 | the override keeps the number of sections and overrides each one entry by entry |
| Config.OverrideSection | Nuitka_py.py:66-70 | a section keeps its name and length, and each entry is overridden on its own |
| Config.OverrideFrame | Nuitka_py.py:69-70 | a lookup changes only for a matched key whose argument is not `None`, and then gives the argument's text |
| Config.OverrideGet | Comp-Package_py.py:64-69 | a lookup after the override gives the argument's text for a present, non-`None` argument, and otherwise the old value |
| Config.OverrideKeepsShape | Compile.Python.py:64-69 | no section and no key is added or removed, their order is kept, and a well-formed table stays well formed |
| Config.OverrideIdempotent | Compress_html.py:53-58 | applying the same arguments twice gives the same table as applying them once |
| Config.OverrideKeepsSections | Obfuscate_js.py:51-56 | a section that holds a set of keys still holds all of them after the override |
| Config.OverrideKeepsKeys | Obfuscate_js.py:51-56 | the override keeps every section and every key a section holds |
| Config.OverrideSectionOf | Nuitka_py.py:65-70 | the section found by name after the override is the overridden section found before |
| Config.Get | Nuitka_py.py:99 | a key is found exactly when some entry holds it, and then with that entry's value |
| Config.UniqueGet | Comp-Package_py.py:72 | with distinct keys, each entry's key finds that entry's value |
| Config.SectionOf | Nuitka_py.py:99 | a section is found exactly when one has the name, and it is that section's entries |
| Config.UniqueSectionOf | Comp-Package_py.py:72 | with distinct names, each section's name finds its entries |
| Config.GetBoolean | Nuitka_py.py:102 | `getboolean` gives true exactly for `1/yes/true/on` and false exactly for `0/no/false/off`, in any case; any other text is a `NotABoolean` error |
| Config.GetBooleanIgnoresCase | Nuitka_py.py:102 | the verdict of `getboolean` does not depend on letter case |
| Config.ConfigDict | Comp-Package_py.py:71-72 | `get_config_dict` has one key per section name |
| Config.ConfigDictValues | Compile.Python.py:71-72 | in a well-formed table, every entry of every section appears under its section and key with its value |
| Config.SectionDict | Comp-Package_py.py:72 | `dict(items)` has exactly the section's keys, each mapped to what a lookup finds |
| Config.ListedKeysPresent | Nuitka_py.py:56 | every key listed in a section can be looked up |
| Nuitka.DefaultsReady | Nuitka_py.py:14-47 | the defaults are well formed and hold every key the builder reads, and so does every override of them |
| Nuitka.ReadyOverridden | Nuitka_py.py:65-70 | the override keeps a table from which the command can be built |
| Nuitka.NewNuitkaCompiler | Nuitka_py.py:73-86 | a missing path is an error, and so is an entry file not ending in `.py`; otherwise the compiler holds the absolute path, the entry file as given and `dist/<project name>` next to the driver, with the project name taken from the absolute path (corrected, see ## Findings) |
| Nuitka.DistDir | Nuitka_py.py:85 | the `dist` directory is the parent of the driver's directory plus `dist` (the root plus `dist` when the driver sits at the root), a normalised path |
| Nuitka.OutputDirPerProject | Nuitka_py.py:81-86 | except at the root, the output directory is one directory below `dist`, named after the project directory |
| Nuitka.OutputDirAsWritten | Nuitka_py.py:81-86 | the driver's output directory is `dist` plus pathlib's name of the path as given |
| Nuitka.OutputDirAsWrittenNotPerProject | Nuitka_py.py:81-86 | for `.` the driver writes into `dist` itself, and for `..` into the parent of `dist` |
| Nuitka.OutputDirOfDots | Nuitka_py.py:79-86 | with the name taken from the absolute path, `.` and `..` run in `/work/app` give `dist/app` and `dist/work` |
| Nuitka.PathlibNameOfDots | Nuitka_py.py:81 | pathlib names `.` with the empty text and `..` with `..` |
| Paths.PathlibName | Nuitka_py.py:81 | `Path(p).name`: a non-empty name is never `.` and holds no `/`; `PathlibNameOfDots` pins the names of `.` and `..` |
| Nuitka.BuildNuitkaCommand | Nuitka_py.py:91-182 | the method's result is the specification `CommandFor` of the settings read from the `Nuitka` section, and it warns exactly when `output_dir` is set and no earlier boolean failed |
| Nuitka.CommandFor | Nuitka_py.py:91-182 | the command as a function of the settings: the error of the first refused boolean, or the parts joined with spaces; `CommandFailsOnlyOnBooleans` and the option lemmas below state what it holds |
| Nuitka.BuildHead | Nuitka_py.py:93-129 | the parts up to the Windows options are the first nine steps, or the error of the first refused boolean among the four leading switches |
| Nuitka.AppendVersionInfo | Nuitka_py.py:132-135 | the loop appends the parts of the six version-information steps in order |
| Nuitka.BuildTail | Nuitka_py.py:138-180 | the parts after the version information are appended in order, or the first refused boolean among the five trailing switches is reported |
| Nuitka.AppendSwitch | Nuitka_py.py:102-103 | a boolean that `getboolean` refuses is an error; otherwise the bare option is appended exactly when it is true |
| Nuitka.AppendValued | Nuitka_py.py:119-125 | `--<option>=<value>` is appended, quoted when asked, exactly when the value is not empty |
| Nuitka.AppendUnlessAuto | Nuitka_py.py:154-158 | `--<option>=<value>` is appended exactly when the value is not `auto` |
| Nuitka.AppendCommaList | Nuitka_py.py:138-151 | one `--<option>=<piece>` is appended per non-empty comma-separated piece, in order |
| Nuitka.CommandHead | Nuitka_py.py:93-97 | the command starts with `python -m nuitka`, then the quoted entry file joined to the project as `os.path.join` does (an absolute entry file as it stands), then `--output-dir="<output dir>"` |
| Nuitka.BooleanOptions | Nuitka_py.py:102-112 | each of the nine boolean options appears exactly once when its setting is true and not at all otherwise |
| Nuitka.ValuedOptions | Nuitka_py.py:96-120 | `--module-name-choice=` appears exactly when the setting is not empty, and the output directory appears exactly once |
| Nuitka.OutputDirSettingIgnored | Nuitka_py.py:115-116 | the configured `output_dir` does not change the command |
| Nuitka.WindowsOptions | Nuitka_py.py:123-129 | the icon appears only on `nt` with a non-empty setting, and the console mode only on `nt` with one of `force/disable/attach/hide` |
| Nuitka.VersionInfoOptions | Nuitka_py.py:132-135 | each version key gives exactly one `--<key with dashes>="<value>"` when its value is not empty, and none otherwise |
| Nuitka.VersionSegment | Nuitka_py.py:135 | the option of each version step is its key with `_` replaced by `-` |
| Nuitka.ListedOptions | Nuitka_py.py:138-151 | a comma-list setting gives as many parts as it has non-empty pieces, each `--<option>=<piece>`, in order |
| Nuitka.CommaPieces | Nuitka_py.py:139-141 | the pieces used are non-empty and hold no comma, and without empty pieces they join back to the setting |
| Nuitka.UnlessAutoOptions | Nuitka_py.py:154-158 | `--jobs=` and `--lto=` appear exactly once when not `auto`, and not at all otherwise |
| Nuitka.EntryPathJoined | Nuitka_py.py:95 | an absolute entry file is passed as it stands, and on POSIX the entry path names the path that joining the entry file's components to the project gives |
| Nuitka.EntryPath | Nuitka_py.py:95 | `os.path.join(project_path, main_file)` as the command shows it; `EntryPathJoined` states that an absolute entry file stands as given |
| Nuitka.NoOtherOptions | Nuitka_py.py:93-180 | no part sets an option outside the builder's list, and the only parts that are not options are the two leading words |
| Nuitka.OptionOfSegment | Nuitka_py.py:93-180 | the parts of the whole command that set an option are exactly those its own step appends |
| Nuitka.SegmentsSeparate | Nuitka_py.py:93-180 | no two steps set the same option, and every part of a step sets that step's option |
| Nuitka.NuitkaOptionsDistinct | Nuitka_py.py:93-180 | the option names of the steps are distinct and contain no `=` |
| Nuitka.OptPartsAppend | Nuitka_py.py:93-180 | the parts that set an option distribute over appending parts |
| Nuitka.OptPartsConcat | Nuitka_py.py:93-180 | selecting the parts for an option commutes with joining the steps |
| Nuitka.CommandFailsOnlyOnBooleans | Nuitka_py.py:102-180 | building fails exactly when some boolean setting is not a boolean word, and reports the first one in reading order |
| Nuitka.BoolErrorFirst | Nuitka_py.py:102-180 | the builder's error is that of the first refused value among the nine booleans in reading order |
| Nuitka.FirstErrorSpec | Nuitka_py.py:102-180 | the first error exists exactly when some value is refused, and every value before it is accepted |
| Nuitka.VersionPrefix | Nuitka_py.py:132-135 | after the loop's first `i` rounds, the parts are those of the first `9 + i` steps |
| Nuitka.TailSteps | Nuitka_py.py:93-180 | the command is the head, then the version information, then the tail |
| Compiler.DefaultsReady | Comp-Package_py.py:28-47 | both drivers' defaults are well formed and hold the keys the compiler settings read, and so does every override |
| Compiler.BuildWellFormed | Compile.Python.py:28-47 | the defaults of `Compile.Python.py` are well formed |
| Compiler.ReadyOverridden | Comp-Package_py.py:64-69 | the override keeps the keys the compiler settings read |
| Compiler.NewProjectCompiler | Comp-Package_py.py:76-92 | a missing path or an entry file not ending in `.py` is an error; otherwise the compiler holds the absolute path, the project name, `build/`, `dist/` and `temp/<name>`, the lower-cased platform and its settings |
| Compiler.WorkDirsPerProject | Compile.Python.py:85-87 | the three work directories are distinct, normalised, and named after the project directory, one level below `build`/`dist`/`temp` |
| Paths.ProjectName | Comp-Package_py.py:94-99 | the project name is the last component, or the parent's name when that is empty |
| Compiler.PlatformCompilerSettings | Comp-Package_py.py:104-122 | the settings built step by step meet `SettingsSpec`: the optimisation level first, `-fPIC` on linux, `-Wno-unused-function` on darwin, the windows compiler only on windows, and `compiler_path` only when not empty |
| Compiler.SettingsArguments | Compile.Python.py:104-122 | the optimisation level comes first, `-fPIC` follows exactly on linux, and `-Wno-unused-function` exactly on darwin |
| Compiler.SettingsDetermined | Comp-Package_py.py:104-122 | the promise fixes the settings completely |
| Compiler.CollectPythonFiles | Comp-Package_py.py:124-135 | a path is collected exactly when some listed file ends in `.py`, does not start with `__`, and is not the entry file |
| Compiler.PickedSources | Compile.Python.py:124-135 | every collected file ends in `.py`, does not start with `__`, and differs from the entry file |
| Paths.JoinPath | Comp-Package_py.py:126 | joining a relative text appends its `/`-separated components, and an absolute text replaces the base |
| Paths.JoinTextRendered | Nuitka_py.py:95 | joining texts names the path that joining components gives, and keeps an absolute text as it stands |
| Paths.JoinText | Nuitka_py.py:95 | `os.path.join` on text: a text starting with `/` or the separator replaces the base; `JoinTextRendered` ties it to `JoinPath` |
| Compiler.StripExt | Comp-Package_py.py:144 | `splitext(...)[0]` on a path changes only its last component |
| Compiler.CreateCythonFiles | Comp-Package_py.py:137-150 | one `.pyx` path per Python file, in order, each the file's `PyxPath` |
| Compiler.PyxPath | Comp-Package_py.py:142-144 | every Cython copy lies below the temp directory |
| Compiler.PyxOfSource | Compile.Python.py:142-144 | the copy of `dir/stem.py` is `temp_dir/dir/stem.pyx` |
| Compiler.PyxInjective | Comp-Package_py.py:141-148 | different source files get different Cython copies |
| Compiler.ModuleOfSource | Comp-Package_py.py:160-162 | the module built from `dir/stem.py` is `dir` and `stem` joined with dots |
| Compiler.ModuleName | Comp-Package_py.py:161-162 | the module name of a Cython file: its path below `temp_dir` without extension, joined with `.`; `ModuleOfSource` states the name for `dir/stem.py` |
| Compiler.RelPathOfAppended | Comp-Package_py.py:161 | below the temp directory, `relpath` gives the path's own tail |
| Compiler.StripPyx | Compile.Python.py:162 | stripping `.pyx` from `dir/stem.pyx` gives `dir/stem` |
| Compiler.CollectResourceFiles | Comp-Package_py.py:220-237 | the resources are the pairs of the files the pruned walk keeps, in walk order |
| Compiler.ResourcesSelected | Comp-Package_py.py:223-235 | a listed file is a resource exactly when its extension is none of `.py/.pyc/.pyo/.pyd/.so` and no excluded directory lies above it |
| Compiler.ResourceRelative | Comp-Package_py.py:232-235 | each resource is paired with its path relative to the project |
| Compiler.ResourcePairs | Comp-Package_py.py:232-235 | one `(abs_path, rel_path)` pair per kept file, in order |
| Compiler.Datas | Comp-Package_py.py:253 | each `datas` entry is the resource with `dirname(rel) or '.'` |
| Compiler.DestDirBelow | Comp-Package_py.py:249-253 | a file directly in the project goes to `.`, and any other to its own directory below the project |
| Compiler.CollectBinaries | Comp-Package_py.py:244-250 | the binaries are the `.pyd`/`.so` files of the walk, each with its directory relative to the project or `.` |
| Compiler.BinariesComplete | Comp-Package_py.py:245-247 | without pruning, every listed compiled module is kept |
| Compiler.BinaryPairs | Comp-Package_py.py:248-250 | one `(file_path, rel_dir or '.')` pair per kept file, in order |
| Batch.CountSuccesses | Compress_html.py:126-130 | the counter ends at the number of files for which the tool succeeded |
| Batch.CountBounds | Obfuscate_js.py:125-129 | the count never exceeds the file count, equals it exactly when every file succeeds, and is 0 when every file fails |
| Batch.ProcessProject | Obfuscate_js.py:107-137 | a refused confirmation setting is an error, an answer other than `y` cancels, no files ends the run, and otherwise the run finishes with the success count of all files; the verdict `step` cannot raise, so a run that an exception ends is not covered here (see `JsObfuscator.ProcessProjectAsWritten`) |
| HtmlMinifier.DefaultsWellFormed | Compress_html.py:19-36 | the defaults are well formed, hold a `Minifier` section and ask for confirmation |
| HtmlMinifier.NewHtmlObfuscator | Compress_html.py:61-66 | a missing path is an error; otherwise the project is the absolute path and the output directory is its `dist` |
| HtmlMinifier.CollectHtmlFiles | Compress_html.py:68-78 | the collected files are the walk's kept HTML files, in walk order |
| HtmlMinifier.HtmlFilesSelected | Compress_html.py:71-77 | a listed file is collected exactly when it ends in `.html` or `.htm` and no directory `node_modules/dist/.git/.svn` lies above it |
| HtmlMinifier.CreateMinifierConfig | Compress_html.py:80-85 | the dictionary has exactly the `Minifier` keys, and each value is true exactly when the setting lower-cased is `true` |
| HtmlMinifier.OnlyTrueIsOn | Compress_html.py:84 | `TRUE` and `True` are on; `yes`, `1` and `on` are off |
| HtmlMinifier.FlagsOfSettings | Compress_html.py:94 | a switch is given exactly for a setting that is on; with none on, the flag string is empty |
| HtmlMinifier.FlagParts | Compress_html.py:94 | the `config_str` parts: each is a `--` switch; `FlagsOfSettings` states which are given |
| HtmlMinifier.FlagString | Compress_html.py:94 | the parts joined with spaces; `FlagsOfSettings` states that it is empty when no setting is on |
| HtmlMinifier.SwitchHyphens | Compress_html.py:94 | a switch is `--` and the key with every `_` replaced by `-` |
| HtmlMinifier.OutputsMirror | Compress_html.py:89-90 | a file below the project is written to the same relative place below `dist`, and no two files share an output |
| HtmlMinifier.OutputPath | Compress_html.py:89-90 | every output path lies strictly below the output directory; `OutputsMirror` states which place |
| HtmlMinifier.OutputsNotCollected | Compress_html.py:71-74 | an output lies under `dist`, which the walk prunes |
| HtmlMinifier.ProcessProject | Compress_html.py:108-138 | confirmation, cancelling, no files, and the finished count over the collected files, which never exceeds their number |
| JsObfuscator.DefaultsWellFormed | Obfuscate_js.py:19-34 | the defaults are well formed, hold an `Obfuscator` section and ask for confirmation |
| JsObfuscator.NewJsObfuscator | Obfuscate_js.py:59-64 | a missing path is an error; otherwise the project is the absolute path and the output directory is its `dist` |
| JsObfuscator.CollectJsFiles | Obfuscate_js.py:66-76 | the collected files are the walk's kept `.js` files, in walk order |
| JsObfuscator.JsFilesSelected | Obfuscate_js.py:69-75 | a listed file is collected exactly when it ends in `.js` and no directory `node_modules/dist/.git/.svn` lies above it |
| JsObfuscator.ClassifyAsWrittenFails | Obfuscate_js.py:84-85 | the value `1.2.3` passes the digit test and then `float` refuses it |
| JsObfuscator.ClassifyAsWritten | Obfuscate_js.py:82-87 | one step of `create_obfuscator_config` as written: it fails only with `NotAFloat` on a value that is digits once the dots are removed and has several dots |
| JsObfuscator.Classify | Obfuscate_js.py:82-87 | `true`/`false` in any case become booleans, a value with at least one digit, only digits otherwise and at most one dot becomes a number, and anything else stays text (corrected, see ## Findings) |
| JsObfuscator.ClassifyCorrects | Obfuscate_js.py:82-87 | the corrected classification agrees with the written one wherever that succeeds, and the written one fails exactly on digit texts with several dots |
| JsObfuscator.NumberShape | Obfuscate_js.py:84-85 | a number has a digit, no character but digits and dots, and at most one dot |
| JsObfuscator.DefaultsClassified | Obfuscate_js.py:25-32 | the default switches are booleans that are on, and the thresholds are numbers |
| JsObfuscator.DecimalIsNumber | Obfuscate_js.py:84-85 | digits, a dot and digits always make a number |
| JsObfuscator.CreateObfuscatorConfig | Obfuscate_js.py:78-88 | one setting per `Obfuscator` key, in order, each with its classified value, so a value such as `1.2.3` stays text (corrected, see ## Findings) |
| JsObfuscator.CreateObfuscatorConfigAsWritten | Obfuscate_js.py:78-88 | as written: the settings are built exactly when no value is refused, and are then the corrected ones; otherwise the error is `NotAFloat` of the first refused value |
| JsObfuscator.OptionsOfSettings | Obfuscate_js.py:97 | every setting gives a part starting with `--<key> `, key unchanged, and a false boolean is passed as `false` |
| JsObfuscator.OptionAt | Obfuscate_js.py:97 | the part of each setting is `--<key> <str(value).lower()>` |
| JsObfuscator.SettingText | Obfuscate_js.py:97 | `str(v).lower()` of a setting, with `floatRepr` for a number; `OptionsOfSettings` states the `true`/`false` texts |
| JsObfuscator.OptionString | Obfuscate_js.py:97 | the `config_str`: the option parts joined with spaces; `OptionsOfSettings` and `OptionAt` state the parts |
| JsObfuscator.OutputsMirror | Obfuscate_js.py:92-93 | a file below the project is written to the same relative place below `dist`, and no two files share an output |
| JsObfuscator.OutputPath | Obfuscate_js.py:92-93 | every output path lies strictly below the output directory; `OutputsMirror` states which place |
| JsObfuscator.OutputsNotCollected | Obfuscate_js.py:69-72 | an output lies under `dist`, which the walk prunes |
| JsObfuscator.ProcessProject | Obfuscate_js.py:107-137 | confirmation, cancelling, no files, and the finished count over the collected files, which never exceeds their number (corrected, see ## Findings) |
| JsObfuscator.ProcessProjectAsWritten | Obfuscate_js.py:107-141 | as written: confirmation, cancelling and no files as above; with files, the first value `float` refuses ends the run with its `NotAFloat` error, and with no value refused the run is the corrected one |
| JsObfuscator.ProcessProjectAsWrittenStops | Obfuscate_js.py:84-85 | a first `Obfuscator` value `1.2.3` is the value that stops the run as written |

| Paths.AbsPath | Nuitka_py.py:79 | `abspath` gives a normalised absolute path |
| Paths.AbsPathOfRendered | Nuitka_py.py:79 | the text of a normalised absolute path below the root is its own absolute path, whatever the working directory |
| Paths.AbsPathOfRelative | Nuitka_py.py:79 | a relative text made of plain names is the working directory plus those names |
| Paths.RelPathBelow | Comp-Package_py.py:142 | below its start, `relpath` is the tail after the start |
| Paths.RelPath | Comp-Package_py.py:142 | `relpath` is never empty (`.` when the paths agree); `RelPathBelow` states the tail below the start |
| Paths.Traverse | Compress_html.py:73-77 | the walk loop keeps exactly the files that survive pruning and the name test, in walk order |
| Paths.Kept | Compress_html.py:73-77 | the pruned and filtered walk keeps at most the listed files; `KeptMembers` states which |
| Paths.KeptMembers | Obfuscate_js.py:71-75 | a file is kept exactly when it is listed, not below an excluded directory, and accepted |
| Paths.KeptPaths | Compress_html.py:73-77 | a listed file's path is among the kept paths exactly when it is neither pruned nor refused |
| Paths.Mirror | Compress_html.py:89-90 | the output path lies below the output directory, and for a file below the project it is the output directory plus the file's tail |
| Paths.MirrorInjective | Obfuscate_js.py:92-93 | two files below the project never share an output path |
| Strings.Lower | Compress_html.py:84 | `lower` keeps the length and lower-cases each ASCII letter |
| Strings.LowerIdempotent | Obfuscate_js.py:82 | lower-casing twice is lower-casing once |
| Strings.ReplaceChar | Compress_html.py:94 | `replace` of one character keeps the length and swaps exactly that character |
| Strings.DeleteChar | Obfuscate_js.py:84 | deleting a character removes every occurrence and nothing else |
| Strings.Split | Nuitka_py.py:139 | `split` gives one piece more than there are separators, and no piece holds the separator |
| Strings.JoinSplit | Nuitka_py.py:139 | joining the pieces of a split with the separator gives the text back |
| Strings.SplitExtSpec | Comp-Package_py.py:144 | `splitext` splits a name into stem and extension, and the extension starts at a last dot with a non-dot before it |
| Strings.SplitExt | Comp-Package_py.py:144 | posix `splitext` of a name; `SplitExtSpec` and `SplitExtOfStem` state its pieces |
| Strings.SplitExtOfStem | Comp-Package_py.py:162 | a stem with a non-dot followed by an extension splits back into the two |

## Left out

- File-system effects are not modelled: `makedirs`, `copy2`, `remove`, `rmtree`, the cleanup methods, and loading and saving the configuration file. The existence checks in the constructors become a `present` parameter. `os.walk` becomes a listing parameter, so the order of traversal is not modelled.
- External processes are oracles. `os.system` in `Nuitka_py.py`, `setup`/`cythonize` in `Comp-Package_py.py` and `subprocess.run` in the HTML and JavaScript drivers are not modelled. The success counter is over a boolean oracle `step`.
- Setting `VS100COMNTOOLS`, `CC` and `CXX` in the environment (`Comp-Package_py.py:172-178`) is a side effect that is not modelled.
- The loop that moves the compiled `.pyd`/`.so` files back into the project (`Comp-Package_py.py:197-209`) is not modelled. It only copies files.
- The text of the PyInstaller spec template (`Comp-Package_py.py:256-310`, `Compile.Python.py:204-244`) is not modelled. Only the `datas` and `binaries` lists of the first are.
- The unused `_get_suggested_output_name` returns the project name unchanged. It has no model of its own.
- Prompts, argument parsing, the interactive menus, timing, printing and `main.py` (the Qt interface) are not modelled. Any text typed at the prompt becomes an `answer` parameter. A printed warning becomes the `warned` result of `Nuitka.BuildNuitkaCommand`.
- configparser parsing is not modelled. Keys are taken as already lower-cased, and a table is an ordered list of sections in which configparser keeps names and keys unique.
- Paths are POSIX only. Windows drive letters and `\` separators are not modelled. `os.sep` appears only as the separator text used to render the Nuitka command. In `Compiler.ModuleName` the module name joins the components with `.` directly.
- `Compiler.CollectPythonFiles`: the source builds a set. The model returns a set too, so iteration order is not modelled. `Compiler.CreateCythonFiles` takes the files in any order as a sequence.
- `JsObfuscator.SettingText`: Python's `str(float(v))` is the oracle `floatRepr`. Floating point is not modelled.
- `Strings.Lower` and `Strings.IsDigits` are ASCII only. Python's `lower` and `isdigit` also treat non-ASCII letters and digits. For example, `²` passes `isdigit` but `float` refuses it, and this case is not modelled.
- `Paths.AbsPath`: paths that start with `//` are not treated specially.
- `JsObfuscator.ProcessProject`: this is the corrected run. As written, a value with several dots that is digits otherwise ends the whole run at the first file (`JsObfuscator.ProcessProjectAsWritten` models this error path). Any other exception in `obfuscate_file`, such as `subprocess.run` raising, also ends the JavaScript run, because nothing catches it before `process_project` re-raises it. The step oracle cannot raise, so this is not modelled. `minify_file` in the HTML driver instead catches such an error and counts a failure, which is what the oracle's `false` models.
- `Paths.JoinText`: on Windows, `ntpath.join` also treats a drive letter as absolute and keeps the base's drive. Drive letters are not modelled; an entry file that starts with `/` or with the separator replaces the project path.
- `Config.ConfigStore.UpdateFromArgs`: configparser's default `BasicInterpolation` is not modelled. Values are stored and read uninterpolated. Storing a value with a stray `%`, such as `100% Pure`, raises `ValueError` in the source, and the model stores it instead. Reading does not turn `%%` into `%` and does not expand `%(name)s`.
- `compile_project` of the two Cython drivers is not modelled: the two confirmations, the steps in order, the PyInstaller run and the cleanup on `clean_temp` or on an error. It only sequences the modelled steps around prompts, outside processes and file-system effects. The Cython compiler directives of `build_extensions` are not modelled either.

## Findings

| source | as written | input that shows it | evidently intended | confidence | as-written member | corrected member |
|---|---|---|---|---|---|---|
| Nuitka_py.py:81 | the project name is `Path(project_path).name` of the path as given, before `abspath` | project path `.` (and `..`) | the output directory is named after the project directory, here `dist/app` for `.` run in `/work/app` | high; not executed | Nuitka.OutputDirAsWrittenNotPerProject | Nuitka.OutputDirOfDots |
| Obfuscate_js.py:84-85 | a value that is digits once all dots are removed is passed to `float` | value `1.2.3` | a value is a number only when `float` accepts it and stays text otherwise | high; not executed | JsObfuscator.ClassifyAsWrittenFails | JsObfuscator.ClassifyCorrects |
