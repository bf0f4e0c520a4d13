/** The SIRIUS annotation step of the `rampt` package: the runner's settings, the
    normalisation of a SIRIUS configuration, the command of one run, the search of an input
    directory and the descent through nested directories. */
module Sirius {
  import opened Wrappers
  import opened Text
  import opened StepValues
  import PipeSteps

  /** `data_ids["in_paths"][0]`: the spectra file a run reads. */
  const SpectraKey := "ms_spectra"
  /** `data_ids["standard"][0]`: the key under which a plain input path is filed. */
  const StandardKey := "processed_data_paths"
  /** `data_ids["config"]` and the pattern name of configuration files. */
  const ConfigKey := "config"
  const ConfigFileName := "sirius_config.txt"
  const ProjectspaceFileName := "projectspace.sirius"

  /** The file-system facts the step consults. */
  datatype Disk = Disk(
    isDir: string -> bool,
    isFile: string -> bool,
    read: string -> string,
    listing: string -> Option<seq<string>>)

  // ---------------------------------------------------------------------------------------
  // extract_config

  /** A configuration file may start with the word `config`, which the command supplies. */
  function DropConfigWord(text: string): (r: string)
    ensures StartsWith(text, "config") ==> text == "config" + r
    ensures !StartsWith(text, "config") ==> r == text
  {
    if StartsWith(text, "config") then text[6..] else text
  }

  /** `extract_config(config)`: a directory stands for its `sirius_config.txt` (and raises
      `ValueError` without one); a file stands for its contents without a leading `config`;
      anything else is the configuration itself. The result is stripped. */
  function ExtractConfig(config: string, disk: Disk): (r: Result<string>)
    ensures r.Err? <==> disk.isDir(config) && !disk.isFile(PathJoin(config, ConfigFileName))
    ensures r.Err? ==> r.error == ValueError
    ensures r.Ok? ==> Stripped(r.value)
    ensures !disk.isDir(config) && !disk.isFile(config) ==> r == Ok(Strip(config))
    ensures !disk.isDir(config) && disk.isFile(config) ==> r == Ok(Strip(DropConfigWord(disk.read(config))))
    ensures disk.isDir(config) && disk.isFile(PathJoin(config, ConfigFileName)) ==>
              r == Ok(Strip(DropConfigWord(disk.read(PathJoin(config, ConfigFileName)))))
  {
    if disk.isDir(config) && !disk.isFile(PathJoin(config, ConfigFileName)) then Err(ValueError)
    else
      var path := if disk.isDir(config) then PathJoin(config, ConfigFileName) else config;
      if disk.isFile(path) then Ok(Strip(DropConfigWord(disk.read(path))))
      else Ok(Strip(path))
  }

  /** `run_single` extracts the stored configuration a second time; for a configuration
      given inline (no such file or directory), that changes nothing. */
  lemma ExtractConfigStable(config: string, disk: Disk, c: string)
    requires ExtractConfig(config, disk) == Ok(c) && !disk.isDir(c) && !disk.isFile(c)
    ensures ExtractConfig(c, disk) == Ok(c)
  {
    StripStable(c);
  }

  // ---------------------------------------------------------------------------------------
  // Sirius_Runner.__init__

  /** The settings of a runner. */
  datatype Runner = Runner(
    execPath: string, config: string, projectspace: Option<string>, name: string,
    patterns: map<string, string>, mandatoryPatterns: map<string, string>)

  /** `Sirius_Runner(exec_path, config, projectspace)`: an empty executable path means
      `sirius`, the configuration is extracted (which may raise), and spectra and
      configuration files get their patterns. */
  function NewRunner(execPath: string, config: string, projectspace: Option<string>, disk: Disk): (r: Result<Runner>)
    ensures r.Err? <==> ExtractConfig(config, disk).Err?
    ensures r.Ok? ==> r.value.execPath != "" && (execPath != "" ==> r.value.execPath == execPath)
    ensures r.Ok? && execPath == "" ==> r.value.execPath == "sirius"
    ensures r.Ok? ==> r.value.config == ExtractConfig(config, disk).value && Stripped(r.value.config)
    ensures r.Ok? ==> r.value.projectspace == projectspace && r.value.name == "sirius"
    ensures r.Ok? ==> r.value.mandatoryPatterns.Keys == {SpectraKey, ConfigKey} == r.value.patterns.Keys
  {
    match ExtractConfig(config, disk)
    case Err(e) => Err(e)
    case Ok(c) =>
      Ok(Runner(if execPath != "" then execPath else "sirius", c, projectspace, "sirius",
                map[SpectraKey := ".*_sirius", ConfigKey := ".*sirius_config"],
                map[SpectraKey := ".*\\.mgf$", ConfigKey := ".*\\.txt$"]))
  }

  // ---------------------------------------------------------------------------------------
  // run_single

  /** The projectspace of a run: the one passed, else the runner's own when set, else the
      output path. */
  function ProjectspaceOf(passed: Option<string>, own: Option<string>, outPath: string): (r: string)
    ensures passed.Some? ==> r == passed.value
    ensures passed.None? && Given(own) ==> r == own.value
    ensures passed.None? && !Given(own) ==> r == outPath
  {
    if passed.Some? then passed.value else if Given(own) then own.value else outPath
  }

  /** The configuration of a run: the one passed when set, else the runner's own. */
  function ConfigOf(passed: Option<string>, own: string): (r: string)
    ensures Given(passed) ==> r == passed.value
    ensures !Given(passed) ==> r == own
  {
    if Given(passed) then passed.value else own
  }

  /** The command handed to the shell:
      `"{exec}" --project "{projectspace}/projectspace.sirius" --input "{in}" config {config}
      write-summaries --output "{out}" {args}`. */
  function Command(execPath: string, projectspace: string, inPath: string, config: string,
                   outPath: string, args: string): (cmd: string)
    ensures StartsWith(cmd, "\"" + execPath + "\" --project \"" + PathJoin(projectspace, ProjectspaceFileName)
                            + "\" --input \"" + inPath + "\" config ")
    ensures EndsWith(cmd, " write-summaries --output \"" + outPath + "\" " + args)
    ensures cmd == "\"" + execPath + "\" --project \"" + PathJoin(projectspace, ProjectspaceFileName)
                   + "\" --input \"" + inPath + "\" config " + config
                   + " write-summaries --output \"" + outPath + "\" " + args
  {
    var head := "\"" + execPath + "\" --project \"" + PathJoin(projectspace, ProjectspaceFileName)
                + "\" --input \"" + inPath + "\" config ";
    var tail := " write-summaries --output \"" + outPath + "\" " + args;
    var cmd := head + (config + tail);
    assert cmd[..|head|] == head;
    assert cmd == (head + config) + tail;
    assert cmd[|cmd| - |tail|..] == tail;
    cmd
  }

  /** `run_single(in_paths, out_path, projectspace, config)` up to the command: the
      fallbacks, then the configuration extracted once more, which may raise. `args` is
      what `link_additional_args` renders. */
  function SingleCommand(runner: Runner, inPath: string, outPath: string, projectspace: Option<string>,
                         config: Option<string>, args: string, disk: Disk): (r: Result<string>)
    ensures r.Err? <==> ExtractConfig(ConfigOf(config, runner.config), disk).Err?
    ensures r.Ok? ==> StartsWith(r.value, "\"" + runner.execPath + "\" --project \""
                                          + PathJoin(ProjectspaceOf(projectspace, runner.projectspace, outPath),
                                                     ProjectspaceFileName)
                                          + "\" --input \"" + inPath + "\" config ")
    ensures r.Ok? ==> EndsWith(r.value, " write-summaries --output \"" + outPath + "\" " + args)
  {
    match ExtractConfig(ConfigOf(config, runner.config), disk)
    case Err(e) => Err(e)
    case Ok(c) => Ok(Command(runner.execPath, ProjectspaceOf(projectspace, runner.projectspace, outPath),
                             inPath, c, outPath, args))
  }

  /** Without a configuration passed, a run of a runner built with an inline configuration
      uses that configuration as stored; without a projectspace passed or stored, the
      project lives in the output directory. */
  lemma SingleCommandDefaults(execPath: string, config: string, disk: Disk, inPath: string, outPath: string, args: string)
    requires NewRunner(execPath, config, None, disk).Ok?
    requires var c := NewRunner(execPath, config, None, disk).value.config; !disk.isDir(c) && !disk.isFile(c)
    ensures var runner := NewRunner(execPath, config, None, disk).value;
            SingleCommand(runner, inPath, outPath, None, None, args, disk) ==
              Ok(Command(runner.execPath, outPath, inPath, runner.config, outPath, args))
  {
    var runner := NewRunner(execPath, config, None, disk).value;
    ExtractConfigStable(config, disk, runner.config);
  }

  // ---------------------------------------------------------------------------------------
  // run_directory

  /** The last entry of a listing that matches the pattern named `key`. */
  function LastMatch(names: seq<string>, key: string, matches: (string, string) -> bool): (r: Option<nat>)
    ensures r.Some? ==> r.value < |names| && matches(key, names[r.value])
                        && forall j :: r.value < j < |names| ==> !matches(key, names[j])
    ensures r.None? ==> forall j :: 0 <= j < |names| ==> !matches(key, names[j])
    decreases |names|
  {
    if names == [] then None
    else if matches(key, names[|names| - 1]) then Some(|names| - 1)
    else
      var init := names[..|names| - 1];
      assert forall j :: 0 <= j < |init| ==> init[j] == names[j];
      LastMatch(init, key, matches)
  }

  /** A scan over a listing in which every match overwrites the previous one. */
  method FindLast(names: seq<string>, key: string, matches: (string, string) -> bool) returns (found: Option<nat>)
    ensures found == LastMatch(names, key, matches)
  {
    found := None;
    var i := 0;
    while i < |names|
      invariant 0 <= i <= |names|
      invariant found == LastMatch(names[..i], key, matches)
    {
      assert names[..i + 1][..i] == names[..i];
      if matches(key, names[i]) {
        found := Some(i);
      }
      i := i + 1;
    }
    assert names[..i] == names;
  }

  /** A non-dict input is filed under the standard key. */
  function Wrap(inPaths: Value): (es: seq<Entry>)
    ensures inPaths.VDict? ==> es == inPaths.entries
    ensures !inPaths.VDict? ==> es == [Entry(StandardKey, inPaths)]
  {
    if inPaths.VDict? then inPaths.entries else [Entry(StandardKey, inPaths)]
  }

  /** The input dict `run_directory` searches: wrapped, then the spectra key filled from
      the standard key. */
  function Inputs(inPaths: Value): seq<Entry> {
    PipeSteps.FillStandards(Wrap(inPaths), [SpectraKey], StandardKey)
  }

  /** A plain path is searched as the spectra directory. */
  lemma PlainInput(inPaths: Value)
    requires !inPaths.VDict?
    ensures Inputs(inPaths) == [Entry(StandardKey, inPaths), Entry(SpectraKey, inPaths)]
  {
    var es := [Entry(StandardKey, inPaths)];
    assert StandardKey != SpectraKey;
    assert Keys(es) == [StandardKey];
    assert Lookup(es, StandardKey) == Some(inPaths);
    assert [SpectraKey][1..] == [];
    assert Put(es[1..], SpectraKey, inPaths) == [Entry(SpectraKey, inPaths)];
    assert Put(es, SpectraKey, inPaths) == [Entry(StandardKey, inPaths), Entry(SpectraKey, inPaths)];
    assert PipeSteps.FillFrom(es, [SpectraKey], inPaths) == Put(es, SpectraKey, inPaths);
  }

  /** The configuration search as written: with no configuration given or stored, the
      input *dict* is listed, which raises `TypeError`. */
  function ConfigSearchAsWritten(cfg: string): (r: Result<string>) {
    if cfg != "" then Ok(cfg) else Err(TypeError)
  }

  /** The configuration search as evidently intended: with no configuration given or
      stored, the input directory is listed and its last configuration file is taken. */
  function ConfigSearch(cfg: string, es: seq<Entry>, disk: Disk, matches: (string, string) -> bool): (r: Result<string>)
    ensures cfg != "" ==> r == Ok(cfg)
    ensures r.Err? ==> r.error == OSError
    ensures cfg == "" && r.Ok? && r.value != "" ==>
              exists dir, names, j :: Lookup(es, StandardKey) == Some(VStr(dir)) && disk.listing(dir) == Some(names)
                                      && LastMatch(names, ConfigKey, matches) == Some(j)
                                      && r.value == PathJoin(dir, names[j])
  {
    if cfg != "" then Ok(cfg)
    else match Lookup(es, StandardKey)
      case Some(VStr(dir)) =>
        (match disk.listing(dir)
         case None => Err(OSError)
         case Some(names) =>
           match LastMatch(names, ConfigKey, matches)
           case Some(j) => Ok(PathJoin(dir, names[j]))
           case None => Ok(""))
      case _ => Ok("")
  }

  /** With no configuration anywhere, the search as written raises, where the intended one
      finds the configuration file of the input directory. */
  lemma ConfigSearchRaises(dir: string, disk: Disk, matches: (string, string) -> bool)
    requires disk.listing(dir) == Some([ConfigFileName]) && matches(ConfigKey, ConfigFileName)
    ensures ConfigSearchAsWritten("") == Err(TypeError)
    ensures ConfigSearch("", Inputs(VStr(dir)), disk, matches) == Ok(PathJoin(dir, ConfigFileName))
  {
    PlainInput(VStr(dir));
    var names := [ConfigFileName];
    assert LastMatch(names, ConfigKey, matches) == Some(0);
  }

  /** The search of the spectra input: its directory's last matching entry replaces it. A
      path that is not a string, or cannot be listed (a file included), raises. */
  function SpectraMatch(es: seq<Entry>, disk: Disk, matches: (string, string) -> bool): (r: Result<seq<Entry>>)
    ensures r.Ok? ==> Keys(r.value) == Keys(es)
    ensures r.Ok? ==> forall k :: k != SpectraKey ==> Lookup(r.value, k) == Lookup(es, k)
    ensures Lookup(es, SpectraKey).None? ==> r == Ok(es)
  {
    match Lookup(es, SpectraKey)
    case None => Ok(es)
    case Some(v) =>
      if !v.VStr? then Err(TypeError)
      else match disk.listing(v.s)
        case None => Err(OSError)
        case Some(names) =>
          match LastMatch(names, SpectraKey, matches)
          case Some(j) =>
            var m := Put(es, SpectraKey, VStr(PathJoin(v.s, names[j])));
            forall k | k != SpectraKey ensures Lookup(m, k) == Lookup(es, k) {
              PutLookup(es, SpectraKey, VStr(PathJoin(v.s, names[j])), k);
            }
            Ok(m)
          case None => Ok(es)
  }

  /** The spectra entry ends as the last match in its directory, or as it was when the
      directory holds none. */
  lemma SpectraMatchFound(es: seq<Entry>, disk: Disk, matches: (string, string) -> bool, dir: string, names: seq<string>)
    requires Lookup(es, SpectraKey) == Some(VStr(dir)) && disk.listing(dir) == Some(names)
    ensures SpectraMatch(es, disk, matches).Ok?
    ensures Lookup(SpectraMatch(es, disk, matches).value, SpectraKey) ==
              match LastMatch(names, SpectraKey, matches)
              case Some(j) => Some(VStr(PathJoin(dir, names[j])))
              case None => Some(VStr(dir))
  {
    match LastMatch(names, SpectraKey, matches)
    case Some(j) => PutLookup(es, SpectraKey, VStr(PathJoin(dir, names[j])), SpectraKey);
    case None =>
  }

  /** What `run_directory` hands to `run_single`. */
  datatype SingleCall = SingleCall(inPaths: seq<Entry>, outPath: string, projectspace: Option<string>, config: string)

  /** `run_directory(in_paths, out_path, projectspace, config)` with the configuration
      search corrected: `None` when nothing is matched (the step only warns). */
  function DirectoryPlan(runner: Runner, inPaths: Value, outPath: string, projectspace: Option<string>,
                         config: Option<string>, disk: Disk, matches: (string, string) -> bool)
    : (r: Result<Option<SingleCall>>)
    ensures r.Ok? && r.value.Some? ==> r.value.value.outPath == outPath && r.value.value.projectspace == projectspace
    ensures r.Ok? ==> (r.value.None? <==> Inputs(inPaths) == [])
  {
    var es := Inputs(inPaths);
    match ConfigSearch(ConfigOf(config, runner.config), es, disk, matches)
    case Err(e) => Err(e)
    case Ok(c) =>
      match SpectraMatch(es, disk, matches)
      case Err(e) => Err(e)
      case Ok(m) =>
        if m == [] then Ok(None) else Ok(Some(SingleCall(m, outPath, projectspace, c)))
  }

  /** A plain input path is never left unmatched. */
  lemma PlainInputRuns(runner: Runner, inPaths: Value, outPath: string, projectspace: Option<string>,
                       config: Option<string>, disk: Disk, matches: (string, string) -> bool)
    requires !inPaths.VDict?
    requires DirectoryPlan(runner, inPaths, outPath, projectspace, config, disk, matches).Ok?
    ensures DirectoryPlan(runner, inPaths, outPath, projectspace, config, disk, matches).value.Some?
  {
    PlainInput(inPaths);
  }

  /** The configuration search of `run_directory` (as intended): the last configuration
      file of the input directory. */
  method SearchConfig(cfg: string, es: seq<Entry>, disk: Disk, matches: (string, string) -> bool)
    returns (r: Result<string>)
    ensures r == ConfigSearch(cfg, es, disk, matches)
  {
    if cfg != "" {
      return Ok(cfg);
    }
    var standard := Lookup(es, StandardKey);
    if standard.None? || !standard.value.VStr? {
      return Ok("");
    }
    var dir := standard.value.s;
    var listing := disk.listing(dir);
    if listing.None? {
      return Err(OSError);
    }
    var found := FindLast(listing.value, ConfigKey, matches);
    if found.Some? {
      r := Ok(PathJoin(dir, listing.value[found.value]));
    } else {
      r := Ok("");
    }
  }

  /** The loop over the inputs of `run_directory`, of which only the spectra key is
      searched. */
  method MatchSpectra(es: seq<Entry>, disk: Disk, matches: (string, string) -> bool) returns (r: Result<seq<Entry>>)
    requires WellFormed(es)
    ensures r == SpectraMatch(es, disk, matches)
  {
    var matched := es;
    var i := 0;
    while i < |es|
      invariant 0 <= i <= |es|
      invariant SpectraKey !in Keys(es[..i]) ==> matched == es
      invariant SpectraKey in Keys(es[..i]) ==> SpectraMatch(es, disk, matches) == Ok(matched)
    {
      assert Keys(es[..i + 1]) == Keys(es[..i]) + [es[i].key];
      if es[i].key == SpectraKey {
        var one := MatchSpectraAt(es, i, disk, matches);
        if one.Err? {
          return one;
        }
        matched := one.value;
      }
      i := i + 1;
    }
    assert es[..i] == es;
    r := Ok(matched);
  }

  /** The search for the spectra entry, found at index `i`: the file itself, then the last
      matching name of its listing. */
  method MatchSpectraAt(es: seq<Entry>, i: nat, disk: Disk, matches: (string, string) -> bool)
    returns (r: Result<seq<Entry>>)
    requires WellFormed(es) && i < |es| && es[i].key == SpectraKey
    ensures r == SpectraMatch(es, disk, matches)
  {
    LookupAt(es, i);
    var path := es[i].value;
    if !path.VStr? {
      return Err(TypeError);
    }
    var matched := es;
    if disk.isFile(path.s) {
      PutSame(matched, SpectraKey, path);
      matched := Put(matched, SpectraKey, path);
    }
    var listing := disk.listing(path.s);
    if listing.None? {
      return Err(OSError);
    }
    var found := FindLast(listing.value, SpectraKey, matches);
    if found.Some? {
      matched := Put(matched, SpectraKey, VStr(PathJoin(path.s, listing.value[found.value])));
    }
    r := Ok(matched);
  }


  /** The method form of `run_directory`. */
  method RunDirectory(runner: Runner, inPaths: Value, outPath: string, projectspace: Option<string>,
                      config: Option<string>, disk: Disk, matches: (string, string) -> bool)
    returns (r: Result<Option<SingleCall>>)
    requires inPaths.VDict? ==> WellFormed(inPaths.entries)
    ensures r == DirectoryPlan(runner, inPaths, outPath, projectspace, config, disk, matches)
  {
    var es := Inputs(inPaths);
    InputsWellFormed(inPaths);
    var cfg := SearchConfig(ConfigOf(config, runner.config), es, disk, matches);
    if cfg.Err? {
      return Err(cfg.error);
    }
    var matched := MatchSpectra(es, disk, matches);
    if matched.Err? {
      return Err(matched.error);
    }
    if matched.value == [] {
      return Ok(None);
    }
    return Ok(Some(SingleCall(matched.value, outPath, projectspace, cfg.value)));
  }

  /** Writing a key the value it already holds changes nothing. */
  lemma {:induction false} PutSame(es: seq<Entry>, key: string, value: Value)
    requires Lookup(es, key) == Some(value)
    ensures Put(es, key, value) == es
  {
    if es[0].key != key {
      PutSame(es[1..], key, value);
    }
  }

  lemma InputsWellFormed(inPaths: Value)
    requires inPaths.VDict? ==> WellFormed(inPaths.entries)
    ensures WellFormed(Inputs(inPaths))
  {
    var es := Wrap(inPaths);
    assert [SpectraKey][1..] == [];
    match Lookup(es, StandardKey)
    case None =>
    case Some(standard) =>
      if SpectraKey !in Keys(es) {
        assert PipeSteps.FillFrom(es, [SpectraKey], standard) == Put(es, SpectraKey, standard);
        PutWellFormed(es, SpectraKey, standard);
      } else {
        assert PipeSteps.FillFrom(es, [SpectraKey], standard) == es;
      }
  }

  // ---------------------------------------------------------------------------------------
  // run_nested

  /** A directory as `os.walk` sees it: its files and its subdirectories. */
  datatype Tree = Tree(files: seq<string>, subdirs: seq<Subdir>)
  datatype Subdir = Subdir(name: string, tree: Tree)

  /** A `run_directory` call: the directory, the output path and the projectspace passed. */
  datatype DirectoryCall = DirectoryCall(inPath: string, outPath: string, projectspace: Option<string>)

  /** One call per spectra file among the files. */
  function FileCalls(files: seq<string>, call: DirectoryCall, matches: (string, string) -> bool): (calls: seq<DirectoryCall>)
    ensures |calls| <= |files| && forall c :: c in calls ==> c == call
    ensures (exists j :: 0 <= j < |files| && matches(SpectraKey, files[j])) <==> calls != []
    decreases |files|
  {
    if files == [] then []
    else
      var init := files[..|files| - 1];
      assert forall j :: 0 <= j < |init| ==> init[j] == files[j];
      FileCalls(init, call, matches) + if matches(SpectraKey, files[|files| - 1]) then [call] else []
  }

  /** The projectspace passed down to a subdirectory: the entry projectspace extended by
      the subdirectory's name when it is set, otherwise the current one. `join` stands for
      `os.path.join` (`Text.PathJoin`). */
  function Descend(join: (string, string) -> string, entry: Option<string>, name: string,
                   current: Option<string>): (r: Option<string>)
    ensures Given(entry) ==> r == Some(join(entry.value, name))
    ensures !Given(entry) ==> r == current
  {
    if Given(entry) then Some(join(entry.value, name)) else current
  }

  /** The projectspace in the keyword arguments after the first `n` subdirectories: the
      last one's extension when the entry projectspace is set, else unchanged. */
  function KwAt(join: (string, string) -> string, entry: Option<string>, t: Tree, n: nat,
                kw: Option<string>): (r: Option<string>)
    requires n <= |t.subdirs|
    ensures n == 0 ==> r == kw
    ensures n > 0 ==> r == Descend(join, entry, t.subdirs[n - 1].name, kw)
  {
    if Given(entry) && n > 0 then Some(join(entry.value, t.subdirs[n - 1].name)) else kw
  }

  /** `run_nested` on one directory: `entry` is the projectspace read on entry, `kw` the one
      currently in the keyword arguments. The directory's spectra files are run with `kw`;
      every subdirectory is descended with the projectspace `Descend` gives (the keyword
      arguments already updated, so an unset entry projectspace leaves `kw`). */
  function Visit(join: (string, string) -> string, inPath: string, t: Tree, outPath: string,
                 entry: Option<string>, kw: Option<string>, matches: (string, string) -> bool): seq<DirectoryCall>
    decreases t, |t.subdirs| + 2
  {
    FileCalls(t.files, DirectoryCall(inPath, outPath, kw), matches)
    + VisitSubdirs(join, inPath, t, |t.subdirs|, outPath, entry, kw, matches)
  }

  /** The descent into the first `n` subdirectories. */
  function VisitSubdirs(join: (string, string) -> string, inPath: string, t: Tree, n: nat, outPath: string,
                        entry: Option<string>, kw: Option<string>, matches: (string, string) -> bool): seq<DirectoryCall>
    requires n <= |t.subdirs|
    decreases t, n + 1
  {
    if n == 0 then []
    else VisitSubdirs(join, inPath, t, n - 1, outPath, entry, kw, matches)
         + SubdirCalls(join, inPath, t, n - 1, outPath, entry, kw, matches)
  }

  /** The descent into subdirectory `i`. */
  function SubdirCalls(join: (string, string) -> string, inPath: string, t: Tree, i: nat, outPath: string,
                       entry: Option<string>, kw: Option<string>, matches: (string, string) -> bool): seq<DirectoryCall>
    requires i < |t.subdirs|
    decreases t, i + 1
  {
    var d := t.subdirs[i];
    var down := Descend(join, entry, d.name, kw);
    Visit(join, join(inPath, d.name), d.tree, join(outPath, d.name), down, down, matches)
  }

  /** A call made in a subdirectory is a call of the whole descent. */
  lemma {:induction false} VisitSubdirsHas(join: (string, string) -> string, inPath: string, t: Tree, n: nat,
                                           outPath: string, entry: Option<string>, kw: Option<string>,
                                           matches: (string, string) -> bool, i: nat, call: DirectoryCall)
    requires i < n <= |t.subdirs|
    requires call in SubdirCalls(join, inPath, t, i, outPath, entry, kw, matches)
    ensures call in VisitSubdirs(join, inPath, t, n, outPath, entry, kw, matches)
    decreases n
  {
    var prev := VisitSubdirs(join, inPath, t, n - 1, outPath, entry, kw, matches);
    var last := SubdirCalls(join, inPath, t, n - 1, outPath, entry, kw, matches);
    assert VisitSubdirs(join, inPath, t, n, outPath, entry, kw, matches) == prev + last;
    if i < n - 1 {
      VisitSubdirsHas(join, inPath, t, n - 1, outPath, entry, kw, matches, i, call);
    }
  }

  /** With a projectspace set, the spectra of a subdirectory are run with the projectspace
      extended by that subdirectory's name. */
  lemma SubdirProjectspace(join: (string, string) -> string, inPath: string, t: Tree, outPath: string, ps: string,
                           i: nat, matches: (string, string) -> bool, f: nat)
    requires ps != "" && i < |t.subdirs|
    requires f < |t.subdirs[i].tree.files| && matches(SpectraKey, t.subdirs[i].tree.files[f])
    ensures DirectoryCall(join(inPath, t.subdirs[i].name), join(outPath, t.subdirs[i].name),
                          Some(join(ps, t.subdirs[i].name)))
            in Visit(join, inPath, t, outPath, Some(ps), Some(ps), matches)
  {
    var d := t.subdirs[i];
    var down := Some(join(ps, d.name));
    var call := DirectoryCall(join(inPath, d.name), join(outPath, d.name), down);
    var own := FileCalls(d.tree.files, call, matches);
    assert own != [] && own[0] in own;
    assert call in SubdirCalls(join, inPath, t, i, outPath, Some(ps), Some(ps), matches);
    VisitSubdirsHas(join, inPath, t, |t.subdirs|, outPath, Some(ps), Some(ps), matches, i, call);
  }

  /** Without a projectspace, every call is made without one. */
  lemma {:induction false} NoProjectspace(join: (string, string) -> string, inPath: string, t: Tree, outPath: string,
                                          ps: Option<string>, matches: (string, string) -> bool, call: DirectoryCall)
    requires !Given(ps) && call in Visit(join, inPath, t, outPath, ps, ps, matches)
    ensures call.projectspace == ps
    decreases t, |t.subdirs| + 2
  {
    NoProjectspaceSubdirs(join, inPath, t, |t.subdirs|, outPath, ps, matches, call);
  }

  lemma {:induction false} NoProjectspaceSubdirs(join: (string, string) -> string, inPath: string, t: Tree, n: nat,
                                                 outPath: string, ps: Option<string>,
                                                 matches: (string, string) -> bool, call: DirectoryCall)
    requires n <= |t.subdirs| && !Given(ps)
    ensures call in VisitSubdirs(join, inPath, t, n, outPath, ps, ps, matches) ==> call.projectspace == ps
    decreases t, n + 1
  {
    if n > 0 {
      var d := t.subdirs[n - 1];
      NoProjectspaceSubdirs(join, inPath, t, n - 1, outPath, ps, matches, call);
      if call in SubdirCalls(join, inPath, t, n - 1, outPath, ps, ps, matches) {
        NoProjectspace(join, join(inPath, d.name), d.tree, join(outPath, d.name), ps, matches, call);
      }
    }
  }

  /** `run_nested` over several input directories as written: the projectspace set while
      descending one directory stays in the keyword arguments for the next one. The result
      is the calls made and the projectspace left behind. */
  function NestedAsWritten(join: (string, string) -> string, roots: seq<(string, Tree)>, outPath: string,
                           ps: Option<string>, matches: (string, string) -> bool): (seq<DirectoryCall>, Option<string>)
    decreases |roots|
  {
    if roots == [] then ([], ps)
    else
      var prev := NestedAsWritten(join, roots[..|roots| - 1], outPath, ps, matches);
      var root := roots[|roots| - 1];
      (prev.0 + Visit(join, root.0, root.1, outPath, ps, prev.1, matches),
       KwAt(join, ps, root.1, |root.1.subdirs|, prev.1))
  }

  /** `run_nested` as evidently intended: every input directory is descended with the
      projectspace that was passed. */
  function Nested(join: (string, string) -> string, roots: seq<(string, Tree)>, outPath: string,
                  ps: Option<string>, matches: (string, string) -> bool): seq<DirectoryCall>
    decreases |roots|
  {
    if roots == [] then []
    else
      var root := roots[|roots| - 1];
      Nested(join, roots[..|roots| - 1], outPath, ps, matches) + Visit(join, root.0, root.1, outPath, ps, ps, matches)
  }

  /** Two input directories, the first with a subdirectory `x`, the second with a spectra
      file: as written the second directory's run gets the first one's projectspace
      extended by `x`, where it should get the projectspace passed. */
  lemma {:induction false} NestedLeaksWith(join: (string, string) -> string, ps: string, a: string, x: string,
                                           b: string, spectra: string, outPath: string,
                                           matches: (string, string) -> bool, roots: seq<(string, Tree)>)
    requires ps != "" && matches(SpectraKey, spectra)
    requires roots == [(a, Tree([], [Subdir(x, Tree([], []))])), (b, Tree([spectra], []))]
    ensures NestedAsWritten(join, roots, outPath, Some(ps), matches).0
            == [DirectoryCall(b, outPath, Some(join(ps, x)))]
    ensures Nested(join, roots, outPath, Some(ps), matches) == [DirectoryCall(b, outPath, Some(ps))]
  {
    var first := roots[0];
    var second := roots[1];
    assert roots[..1] == [first] && roots[..1][..0] == [];
    var down := Some(join(ps, x));
    var child := first.1.subdirs[0];
    assert FileCalls(child.tree.files, DirectoryCall(join(a, x), join(outPath, x), down), matches) == [];
    assert VisitSubdirs(join, join(a, x), child.tree, 0, join(outPath, x), down, down, matches) == [];
    assert SubdirCalls(join, a, first.1, 0, outPath, Some(ps), Some(ps), matches) == [];
    assert VisitSubdirs(join, a, first.1, 1, outPath, Some(ps), Some(ps), matches) == [];
    assert FileCalls(first.1.files, DirectoryCall(a, outPath, Some(ps)), matches) == [];
    assert Visit(join, a, first.1, outPath, Some(ps), Some(ps), matches) == [];
    assert NestedAsWritten(join, [first], outPath, Some(ps), matches) == ([], down);
    assert Nested(join, [first], outPath, Some(ps), matches) == [];
    assert second.1.files[..0] == [];
    assert FileCalls(second.1.files, DirectoryCall(b, outPath, down), matches) == [DirectoryCall(b, outPath, down)];
    assert FileCalls(second.1.files, DirectoryCall(b, outPath, Some(ps)), matches)
        == [DirectoryCall(b, outPath, Some(ps))];
    assert VisitSubdirs(join, b, second.1, 0, outPath, Some(ps), down, matches) == [];
    assert VisitSubdirs(join, b, second.1, 0, outPath, Some(ps), Some(ps), matches) == [];
  }

  /** `ps` joined with `x` is `ps/x`, not `ps`. */
  lemma JoinExtends(ps: string, x: string)
    requires ps == "ps" && x == "x"
    ensures PathJoin(ps, x) == ps + "/" + x != ps
  {
    assert !EndsWith(ps, "/") && !StartsWith(x, "/");
  }

  /** The instance with `os.path.join`, the projectspace `ps` and the directories `a`
      (holding the subdirectory `x`) and `b`: the run in `b` gets `ps/x`. */
  lemma NestedLeaks(ps: string, a: string, x: string, b: string, spectra: string, outPath: string,
                    matches: (string, string) -> bool, roots: seq<(string, Tree)>)
    requires ps == "ps" && a == "a" && x == "x" && b == "b" && matches(SpectraKey, spectra)
    requires roots == [(a, Tree([], [Subdir(x, Tree([], []))])), (b, Tree([spectra], []))]
    ensures NestedAsWritten(PathJoin, roots, outPath, Some(ps), matches).0
            == [DirectoryCall(b, outPath, Some(ps + "/" + x))]
    ensures Nested(PathJoin, roots, outPath, Some(ps), matches) == [DirectoryCall(b, outPath, Some(ps))]
    ensures ps + "/" + x != ps
  {
    NestedLeaksWith(PathJoin, ps, a, x, b, spectra, outPath, matches, roots);
    JoinExtends(ps, x);
  }

  /** The descent of one directory, with the projectspace of the keyword arguments updated
      for every subdirectory; the second result is what is left in them. */
  method VisitTree(join: (string, string) -> string, inPath: string, t: Tree, outPath: string,
                   entry: Option<string>, kw: Option<string>, matches: (string, string) -> bool)
    returns (calls: seq<DirectoryCall>, kwOut: Option<string>)
    ensures calls == Visit(join, inPath, t, outPath, entry, kw, matches)
    ensures kwOut == KwAt(join, entry, t, |t.subdirs|, kw)
    decreases t
  {
    var fileCalls := [];
    var i := 0;
    while i < |t.files|
      invariant 0 <= i <= |t.files|
      invariant fileCalls == FileCalls(t.files[..i], DirectoryCall(inPath, outPath, kw), matches)
    {
      assert t.files[..i + 1][..i] == t.files[..i];
      if matches(SpectraKey, t.files[i]) {
        fileCalls := fileCalls + [DirectoryCall(inPath, outPath, kw)];
      }
      i := i + 1;
    }
    assert t.files[..i] == t.files;
    var sub := [];
    kwOut := kw;
    var j := 0;
    while j < |t.subdirs|
      invariant 0 <= j <= |t.subdirs|
      invariant sub == VisitSubdirs(join, inPath, t, j, outPath, entry, kw, matches)
      invariant kwOut == KwAt(join, entry, t, j, kw)
    {
      var d := t.subdirs[j];
      if Given(entry) {
        kwOut := Some(join(entry.value, d.name));
      }
      assert kwOut == Descend(join, entry, d.name, kw);
      var more, _ := VisitTree(join, join(inPath, d.name), d.tree, join(outPath, d.name), kwOut, kwOut, matches);
      assert more == SubdirCalls(join, inPath, t, j, outPath, entry, kw, matches);
      sub := sub + more;
      j := j + 1;
    }
    calls := fileCalls + sub;
  }

  /** `run_nested(in_paths, out_path, projectspace)` with every input directory descended
      from the projectspace passed. */
  method RunNested(roots: seq<(string, Tree)>, outPath: string, ps: Option<string>, matches: (string, string) -> bool)
    returns (calls: seq<DirectoryCall>)
    ensures calls == Nested(PathJoin, roots, outPath, ps, matches)
  {
    calls := [];
    var i := 0;
    while i < |roots|
      invariant 0 <= i <= |roots|
      invariant calls == Nested(PathJoin, roots[..i], outPath, ps, matches)
    {
      assert roots[..i + 1][..i] == roots[..i];
      var more, _ := VisitTree(PathJoin, roots[i].0, roots[i].1, outPath, ps, ps, matches);
      calls := calls + more;
      i := i + 1;
    }
    assert roots[..i] == roots;
  }
}
