/** The mzmine feature-finding step of the `rampt` package: the runner's login and
    executable, its mandatory input pattern, the command of one batch run and the schedule
    `main` sets up. */
module MZmine {
  import opened Wrappers
  import opened Text
  import opened StepValues
  import PipeSteps

  /** `common_execs`: the executables tried after the one given. */
  const CommonExecs: seq<string> := ["mzmine", "mzmine.exe", "mzmine_console"]
  /** The default `valid_formats`. */
  const DefaultFormats: seq<string> := ["mzML", "mzXML", "imzML"]
  /** The default `login` argument of the runner. */
  const DefaultLogin := "-login"
  const UserFlag := "--user "
  const PatternHead := ".*\\.("
  const PatternTail := ")$"

  // ---------------------------------------------------------------------------------------
  // __init__

  /** The mandatory input pattern `.*\.(f1|f2|...)$` over the valid formats. */
  function MandatoryPattern(validFormats: seq<string>): (p: string)
    ensures StartsWith(p, PatternHead) && EndsWith(p, PatternTail)
    ensures |p| == |PatternHead| + |Join(validFormats, "|")| + |PatternTail|
  {
    var alternatives := Join(validFormats, "|");
    var p := PatternHead + alternatives + PatternTail;
    assert p[..|PatternHead|] == PatternHead;
    assert p[|p| - |PatternTail|..] == PatternTail;
    p
  }

  /** The alternatives of the pattern are exactly the valid formats, when none of them
      holds a `|`. */
  lemma MandatoryPatternFormats(validFormats: seq<string>)
    requires |validFormats| >= 1 && forall k :: 0 <= k < |validFormats| ==> '|' !in validFormats[k]
    ensures var p := MandatoryPattern(validFormats);
            Split(p[|PatternHead|..|p| - |PatternTail|], '|') == validFormats
  {
    var alternatives := Join(validFormats, "|");
    var p := MandatoryPattern(validFormats);
    assert p == PatternHead + alternatives + PatternTail;
    assert p[|PatternHead|..|p| - |PatternTail|] == alternatives;
    assert "|" == ['|'];
    SplitJoin(validFormats, '|');
  }

  /** The login flag: `--user {user}` for a given user, else `--login-console` when the
      login argument mentions `console` in any case, else `--login`. */
  function Login(user: Option<string>, login: string): (r: string)
    ensures Given(user) <==> StartsWith(r, UserFlag)
    ensures Given(user) ==> r[|UserFlag|..] == user.value
    ensures r == "--login-console" <==> !Given(user) && Contains(Lower(login), "console")
    ensures r == "--login" <==> !Given(user) && !Contains(Lower(login), "console")
  {
    var r := if Given(user) then UserFlag + user.value
             else if Contains(Lower(login), "console") then "--login-console"
             else "--login";
    assert "--login-console"[2] != UserFlag[2] && "--login"[2] != UserFlag[2];
    assert Given(user) ==> r[..|UserFlag|] == UserFlag && r[2] == UserFlag[2];
    r
  }

  /** With the default login argument and no user, mzmine prompts for a login. */
  lemma LoginDefault(user: Option<string>, login: string)
    requires login == DefaultLogin && !Given(user)
    ensures Login(user, login) == "--login"
  {
    assert |Lower(login)| == 6;
  }

  /** The runner's settings. `execPath` is `None` when no candidate executable passes the
      check. */
  datatype Runner = Runner(
    execPath: Option<string>, batch: string, login: string, validFormats: seq<string>,
    name: string, mandatoryPatterns: map<string, string>, additionalArgs: seq<string>, nested: bool)

  /** `MZmine_Runner(...)`: the first working executable (`works` stands for
      `check_exec_path`), the login flag and the mandatory pattern for the input. */
  function NewRunner(execPath: string, batch: string, login: string, user: Option<string>,
                     validFormats: seq<string>, additionalArgs: seq<string>, nested: bool,
                     works: string -> bool): (r: Runner)
    ensures works(execPath) ==> r.execPath == Some(execPath)
    ensures !works(execPath) ==> r.execPath == PipeSteps.FirstExec(CommonExecs, works)
    ensures r.execPath.None? <==> !works(execPath) && forall k :: 0 <= k < |CommonExecs| ==> !works(CommonExecs[k])
    ensures r.login == Login(user, login) && r.name == "mzmine" && r.batch == batch
    ensures r.mandatoryPatterns == map["in" := MandatoryPattern(validFormats)]
    ensures r.validFormats == validFormats && r.additionalArgs == additionalArgs && r.nested == nested
  {
    var candidates := [execPath] + CommonExecs;
    assert candidates[1..] == CommonExecs;
    assert PipeSteps.FirstWorkingFrom(candidates, works, 1) == PipeSteps.FirstWorkingFrom(CommonExecs, works, 0) + 1 by {
      FirstWorkingShift(execPath, CommonExecs, works, 0);
    }
    Runner(PipeSteps.FirstExec(candidates, works), batch, Login(user, login), validFormats, "mzmine",
           map["in" := MandatoryPattern(validFormats)], additionalArgs, nested)
  }

  /** Searching from index `i + 1` behind a head candidate is searching the rest from `i`. */
  lemma {:induction false} FirstWorkingShift(head: string, rest: seq<string>, works: string -> bool, i: nat)
    requires i <= |rest|
    ensures PipeSteps.FirstWorkingFrom([head] + rest, works, i + 1) == PipeSteps.FirstWorkingFrom(rest, works, i) + 1
    decreases |rest| - i
  {
    var candidates := [head] + rest;
    assert candidates[i + 1..] == rest[i..];
    if i < |rest| && !works(rest[i]) {
      assert candidates[i + 1] == rest[i];
      FirstWorkingShift(head, rest, works, i + 1);
    }
  }

  // ---------------------------------------------------------------------------------------
  // run_single

  /** How an optional executable reads inside an f-string: `None` when there is none. */
  function ExecText(execPath: Option<string>): (s: string)
    ensures execPath.Some? ==> s == execPath.value
    ensures execPath.None? ==> s == "None"
  {
    if execPath.Some? then execPath.value else "None"
  }

  /** The batch of a run: the one passed when it is set, else the runner's own. */
  function BatchOf(passed: Option<string>, own: string): (b: string)
    ensures Given(passed) ==> b == passed.value
    ensures !Given(passed) ==> b == own
  {
    if Given(passed) then passed.value else own
  }

  /** Passing the batch the fallback chose changes nothing. */
  lemma BatchOfStable(passed: Option<string>, own: string)
    ensures BatchOf(Some(BatchOf(passed, own)), own) == BatchOf(passed, own)
  {
  }

  /** `"{exec}" {login} --batch "{batch}"`, the head of a command. */
  function CommandHead(r: Runner, batch: string): string {
    "\"" + ExecText(r.execPath) + "\" " + r.login + " --batch \"" + batch + "\""
  }

  /** `run_single(in_path, out_path, batch)`:
      `"{exec}" {login} --batch "{batch}" --input "{in}" --output "{out}" {args}`. */
  function Command(r: Runner, inPath: string, outPath: string, batch: Option<string>): (cmd: string)
    ensures StartsWith(cmd, CommandHead(r, BatchOf(batch, r.batch)) + " --input \"")
    ensures EndsWith(cmd, "\" " + Join(r.additionalArgs, " "))
    ensures OccursAt(cmd, inPath + "\" --output \"" + outPath, |CommandHead(r, BatchOf(batch, r.batch)) + " --input \""|)
    ensures cmd == "\"" + ExecText(r.execPath) + "\" " + r.login + " --batch \"" + BatchOf(batch, r.batch)
                   + "\" --input \"" + inPath + "\" --output \"" + outPath + "\" " + Join(r.additionalArgs, " ")
  {
    var head := CommandHead(r, BatchOf(batch, r.batch)) + " --input \"";
    var middle := inPath + "\" --output \"" + outPath;
    var tail := "\" " + Join(r.additionalArgs, " ");
    var cmd := head + middle + tail;
    assert cmd[..|head|] == head;
    assert cmd[|head|..|head| + |middle|] == middle;
    assert cmd[|cmd| - |tail|..] == tail;
    cmd
  }

  /** A run without a batch of its own is the run with the runner's batch. */
  lemma CommandBatchFallback(r: Runner, inPath: string, outPath: string, batch: Option<string>)
    requires !Given(batch)
    ensures Command(r, inPath, outPath, batch) == Command(r, inPath, outPath, Some(r.batch))
  {
  }

  // ---------------------------------------------------------------------------------------
  // main

  /** The executable `main` hands the runner: `mzmine` when none is given. */
  function MainExec(execPath: Option<string>): (e: string)
    ensures e != ""
    ensures Given(execPath) ==> e == execPath.value
  {
    if Given(execPath) then execPath.value else "mzmine"
  }

  /** The extra arguments of `main`: the ones given when there are any, else the unknown
      command-line arguments. */
  function MainArgs(given: Option<seq<string>>, unknownArgs: seq<string>): (args: seq<string>)
    ensures given.Some? && given.value != [] ==> args == given.value
    ensures given.None? || given.value == [] ==> args == unknownArgs
  {
    if given.Some? && given.value != [] then given.value else unknownArgs
  }

  /** The runner `main` builds, with the default login. */
  function MainRunner(execPath: Option<string>, batch: string, user: Option<string>, nested: bool,
                      validFormats: seq<string>, given: Option<seq<string>>, unknownArgs: seq<string>,
                      works: string -> bool): (r: Runner)
    ensures r.batch == batch && r.nested == nested && r.validFormats == validFormats
    ensures r.additionalArgs == MainArgs(given, unknownArgs)
  {
    NewRunner(MainExec(execPath), batch, DefaultLogin, user, validFormats, MainArgs(given, unknownArgs), nested, works)
  }

  /** Without an executable and with a working `mzmine`, `main` runs `mzmine`; without a
      user, it asks for a login. */
  lemma MainRunnerDefaults(batch: string, user: Option<string>, nested: bool, validFormats: seq<string>,
                           given: Option<seq<string>>, unknownArgs: seq<string>, works: string -> bool)
    requires works(CommonExecs[0])
    ensures var r := MainRunner(None, batch, user, nested, validFormats, given, unknownArgs, works);
            && r.execPath == Some("mzmine")
            && (Given(user) ==> r.login == UserFlag + user.value)
            && (!Given(user) ==> r.login == "--login")
  {
    var r := MainRunner(None, batch, user, nested, validFormats, given, unknownArgs, works);
    assert MainExec(None) == CommonExecs[0];
    if !Given(user) {
      LoginDefault(user, DefaultLogin);
    } else {
      assert r.login[..|UserFlag|] == UserFlag;
    }
  }

  /** The schedule of `main`: `{"in": {"standard": in_dir}, "out": {"standard": out_dir}}`. */
  function MainSchedule(inDir: Value, outDir: Value): (io: seq<Entry>)
    ensures WellFormed(io) && Keys(io) == ["in", "out"]
    ensures Lookup(io, "in") == Some(VDict([Entry("standard", inDir)]))
    ensures Lookup(io, "out") == Some(VDict([Entry("standard", outDir)]))
  {
    var io := [Entry("in", VDict([Entry("standard", inDir)])), Entry("out", VDict([Entry("standard", outDir)]))];
    assert Keys(io) == ["in", "out"];
    io
  }
}
