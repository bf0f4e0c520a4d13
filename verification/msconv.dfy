/** The msconvert step of the `rampt` package: which inputs are converted and which outputs
    are redone, the output names and command lines of the conversions, and the schedule
    `main` sets up. */
module MSConvert {
  import opened Wrappers
  import opened Text
  import opened StepValues
  import opened Sequences
  import PipeSteps

  /** `valid_formats`: the input endings msconvert reads. */
  const ValidFormats: seq<string> :=
    ["raw", "d", "lcd", "t2d", "baf", "fid", "tdf", "tsf", "wiff", "wiff2", "yep", "mzML", "mzXML", "imzML"]

  /** The mandatory input pattern `.*\.(raw|d|...)$` of the step. */
  function MandatoryPattern(): string {
    ".*\\.(" + Join(ValidFormats, "|") + ")$"
  }

  /** What the mandatory pattern accepts, read as the suffix test it spells out: the path
      ends with a `.` and one of the valid formats. */
  predicate HasValidFormat(path: string) {
    exists k :: 0 <= k < |ValidFormats| && EndsWith(path, "." + ValidFormats[k])
  }

  /** The origin half of `select_for_conversion`: `match_path` searches the step's full
      regex `(?=P)(?=M)`, whose two lookaheads must hold at one and the same position. The
      lookahead of the user pattern `P` at position `i` is `userAt(path, i)`; the mandatory
      pattern `M` holds at `i` when the rest of the path passes the suffix test. */
  predicate InValid(userAt: (string, nat) -> bool, path: string) {
    exists i: nat :: i <= |path| && userAt(path, i) && HasValidFormat(path[i..])
  }

  /** The rest of a path that ends with an ending ends with it too, and so does the path. */
  lemma InValidHasFormat(userAt: (string, nat) -> bool, path: string)
    requires InValid(userAt, path)
    ensures HasValidFormat(path)
  {
    var i: nat :| i <= |path| && userAt(path, i) && HasValidFormat(path[i..]);
    var k :| 0 <= k < |ValidFormats| && EndsWith(path[i..], "." + ValidFormats[k]);
    var e := "." + ValidFormats[k];
    assert path[|path| - |e|..] == path[i..][|path[i..]| - |e|..];
  }

  /** With a user pattern whose lookahead holds at the start, such as the default `.*`, the
      origin test is exactly the mandatory suffix test. */
  lemma InValidDefaultPattern(userAt: (string, nat) -> bool, path: string)
    requires userAt(path, 0)
    ensures InValid(userAt, path) <==> HasValidFormat(path)
  {
    if InValid(userAt, path) {
      InValidHasFormat(userAt, path);
    }
    if HasValidFormat(path) {
      assert path[0..] == path;
      assert userAt(path, 0) && HasValidFormat(path[0..]);
    }
  }

  /** The lookahead of a literal user pattern `u`: the path continues with `u` at `i`. */
  function LiteralAt(u: string): (string, nat) -> bool {
    (p: string, i: nat) => i <= |p| && StartsWith(p[i..], u)
  }

  /** A path that passes the suffix test holds a `.`. */
  lemma FormatHasDot(rest: string) returns (j: nat)
    requires HasValidFormat(rest)
    ensures j < |rest| && rest[j] == '.'
  {
    var k :| 0 <= k < |ValidFormats| && EndsWith(rest, "." + ValidFormats[k]);
    var e := "." + ValidFormats[k];
    j := |rest| - |e|;
    assert rest[j..][0] == e[0];
  }

  /** The user pattern `mzML` finds `a.mzML`, and the path passes the suffix test, but the
      two lookaheads never hold at the same position, so the input is rejected. */
  lemma SamePositionRequired(path: string, u: string)
    requires path == "a.mzML" && u == "mzML"
    ensures LiteralAt(u)(path, 2) && HasValidFormat(path)
    ensures !InValid(LiteralAt(u), path)
  {
    assert path[2..] == u;
    assert EndsWith(path, "." + ValidFormats[11]);
    forall i: nat | i <= |path|
      ensures !(LiteralAt(u)(path, i) && HasValidFormat(path[i..]))
    {
      if HasValidFormat(path[i..]) {
        var j := FormatHasDot(path[i..]);
        assert path[i + j] == '.';
        assert path[i] != u[0];
      }
    }
  }

  /** Raw and mzML inputs pass the mandatory pattern. */
  lemma MandatoryAccepts(raw: string, mzml: string)
    requires raw == "run_01.raw" && mzml == "sample.mzML"
    ensures HasValidFormat(raw) && HasValidFormat(mzml)
  {
    assert EndsWith(raw, "." + ValidFormats[0]);
    assert EndsWith(mzml, "." + ValidFormats[11]);
  }

  /** No valid format ends in `t`. */
  lemma NoFormatEndsInT(k: nat)
    requires k < |ValidFormats|
    ensures ValidFormats[k] != [] && ValidFormats[k][|ValidFormats[k]| - 1] != 't'
  {
  }

  /** A text file does not pass the mandatory pattern. */
  lemma MandatoryRejects(txt: string)
    requires txt == "notes.txt"
    ensures !HasValidFormat(txt)
  {
    assert txt[|txt| - 1] == 't';
    forall k | 0 <= k < |ValidFormats|
      ensures !EndsWith(txt, "." + ValidFormats[k])
    {
      var e := "." + ValidFormats[k];
      NoFormatEndsInT(k);
      assert e[|e| - 1] != 't';
    }
  }

  /** `target_format` as the runner stores it: with a leading `.`, and every character from
      index 3 on upper-cased (`change_case_str(s, slice(3, len(s)), "upper")`). */
  function TargetFormat(targetFormat: string): (r: string)
    ensures |r| == |Dotted(targetFormat)| && StartsWith(r, ".")
  {
    var d := Dotted(targetFormat);
    if |d| <= 3 then d else d[..3] + Upper(d[3..])
  }

  function Dotted(targetFormat: string): (d: string)
    ensures StartsWith(d, ".")
  {
    if |targetFormat| > 0 && targetFormat[0] == '.' then targetFormat else ['.'] + targetFormat
  }

  /** The normalised format keeps its first three characters, upper-cases the rest, and
      normalising twice changes nothing more. */
  lemma TargetFormatSpec(targetFormat: string)
    ensures var d := Dotted(targetFormat);
            var r := TargetFormat(targetFormat);
            && (forall i :: 0 <= i < |d| && i < 3 ==> r[i] == d[i])
            && (forall i :: 3 <= i < |d| ==> r[i] == UpperChar(d[i]))
    ensures TargetFormat(TargetFormat(targetFormat)) == TargetFormat(targetFormat)
  {
    var d := Dotted(targetFormat);
    var r := TargetFormat(targetFormat);
    if |d| > 3 {
      assert r[3..] == Upper(d[3..]);
      assert Dotted(r) == r;
      assert Upper(r[3..]) == r[3..];
      assert r[..3] + r[3..] == r;
    }
  }

  /** `mzxml` becomes `.mzXML`, and `mzML` becomes `.mzML`. */
  lemma TargetFormatExamples()
    ensures TargetFormat("mzxml") == ".mzXML"
    ensures TargetFormat("mzML") == ".mzML"
  {
    assert Dotted("mzxml") == ['.'] + "mzxml" == ".mzxml";
    assert Upper(".mzxml"[3..]) == "XML";
    assert Dotted("mzML") == ['.'] + "mzML" == ".mzML";
    assert Upper(".mzML"[3..]) == "ML";
  }

  /** What the file system says about a hypothetical output: whether it is a file, its
      size, and what `open_last_line_with_content` gives for it. */
  datatype OutFile = OutFile(isFile: bool, size: int, lastLine: Result<string>)

  /** `regex.search("^</.*>$", line)`: the line is a closing tag; `$` also matches before a
      final newline, and `.` matches no newline. */
  predicate ClosingTag(line: string) {
    var l := if |line| > 0 && line[|line| - 1] == '\n' then line[..|line| - 1] else line;
    |l| >= 3 && l[0] == '<' && l[1] == '/' && l[|l| - 1] == '>' && '\n' !in l
  }

  /** An output that is complete: a file at least as large as the threshold whose last
      line with content is a closing tag. */
  predicate Complete(out: OutFile, redoThreshold: real) {
    out.isFile && out.size as real >= redoThreshold && out.lastLine.Ok? && ClosingTag(out.lastLine.value)
  }

  /** The target half of `select_for_conversion`. The tests run in order and stop at the
      first that holds; reading the last line fails when the file has no line with
      content, and that error propagates. */
  function OutValid(overwrite: bool, redoThreshold: real, out: OutFile): (r: Result<bool>)
    ensures r == Ok(false) <==> !overwrite && Complete(out, redoThreshold)
    ensures r.Err? <==> !overwrite && out.isFile && out.size as real >= redoThreshold && out.lastLine.Err?
  {
    if overwrite || !out.isFile || out.size as real < redoThreshold then Ok(true)
    else if out.lastLine.Err? then Err(out.lastLine.error)
    else Ok(!ClosingTag(out.lastLine.value))
  }

  /** `select_for_conversion(in_path, out_path)`: the pair (origin valid, target valid). */
  function SelectForConversion(userAt: (string, nat) -> bool, overwrite: bool, redoThreshold: real,
                               inPath: string, out: OutFile): (r: Result<(bool, bool)>)
    ensures r.Ok? ==> (r.value.0 <==> InValid(userAt, inPath))
    ensures r.Ok? ==> (r.value.1 <==> overwrite || !Complete(out, redoThreshold))
    ensures r.Err? <==> OutValid(overwrite, redoThreshold, out).Err?
  {
    var outValid := OutValid(overwrite, redoThreshold, out);
    if outValid.Err? then Err(outValid.error) else Ok((InValid(userAt, inPath), outValid.value))
  }

  /** `".".join(basename(in_path).split(".")[:-1]) + target_format`: the base name without
      its last extension, followed by the target format. */
  function OutFileName(inPath: string, targetFormat: string): string {
    var parts := Split(Basename(inPath), '.');
    Join(parts[..|parts| - 1], ".") + targetFormat
  }

  /** A base name `stem.ext` gives `stem` followed by the target format. */
  lemma OutFileNameReplacesEnding(inPath: string, stem: string, ext: string, targetFormat: string)
    requires Basename(inPath) == stem + "." + ext && '.' !in ext
    ensures OutFileName(inPath, targetFormat) == stem + targetFormat
  {
    SplitAppendLast(stem, '.', ext);
    var parts := Split(stem, '.') + [ext];
    assert parts[..|parts| - 1] == Split(stem, '.');
    JoinSplit(stem, '.');
  }

  /** `minimal_file.mzML` converted to `.mzXML` is written as `minimal_file.mzXML`. */
  lemma OutFileNameExample()
    ensures OutFileName("minimal_file.mzML", ".mzXML") == "minimal_file.mzXML"
  {
    var stem, ext := "minimal_file", "mzML";
    assert "minimal_file.mzML" == stem + "." + ext;
    assert "minimal_file.mzXML" == stem + ".mzXML";
    OutFileNameOfName(stem, ext, ".mzXML");
  }

  /** A plain file name `stem.ext` without directory. */
  lemma OutFileNameOfName(stem: string, ext: string, targetFormat: string)
    requires '/' !in stem && '/' !in ext && '.' !in ext
    ensures OutFileName(stem + "." + ext, targetFormat) == stem + targetFormat
  {
    var p := stem + "." + ext;
    AfterLastSlashAppend("", p);
    assert "" + p == p;
    OutFileNameReplacesEnding(p, stem, ext, targetFormat);
  }

  /** A split at the last separator: the piece after it comes last. */
  lemma {:induction false} SplitAppendLast(a: string, sep: char, b: string)
    requires sep !in b
    ensures Split(a + [sep] + b, sep) == Split(a, sep) + [b]
    decreases |a|
  {
    if |a| == 0 {
      assert a + [sep] + b == [sep] + b;
      assert ([sep] + b)[1..] == b;
      SplitWithoutSep(b, sep);
    } else {
      assert (a + [sep] + b)[0] == a[0];
      assert (a + [sep] + b)[1..] == a[1..] + [sep] + b;
      SplitAppendLast(a[1..], sep, b);
    }
  }

  /** The command handed to the shell:
      `"{exec}" --{fmt[1:]} -e {fmt} --64 -o "{out}" --outfile "{name}" "{in}" {args}`. */
  function Command(execPath: string, targetFormat: string, outPath: string, outFileName: string,
                   inPath: string, args: string): (cmd: string)
    ensures StartsWith(cmd, "\"" + execPath + "\" --" + Drop1(targetFormat) + " -e " + targetFormat)
    ensures EndsWith(cmd, "\"" + inPath + "\" " + args)
    ensures cmd == "\"" + execPath + "\" --" + Drop1(targetFormat) + " -e " + targetFormat
                   + " --64 -o \"" + outPath + "\" --outfile \"" + outFileName + "\" "
                   + "\"" + inPath + "\" " + args
  {
    var head := "\"" + execPath + "\" --" + Drop1(targetFormat) + " -e " + targetFormat;
    var tail := "\"" + inPath + "\" " + args;
    var cmd := head + " --64 -o \"" + outPath + "\" --outfile \"" + outFileName + "\" " + tail;
    assert cmd == head + (" --64 -o \"" + outPath + "\" --outfile \"" + outFileName + "\" " + tail);
    assert cmd[..|head|] == head;
    assert cmd[|cmd| - |tail|..] == tail;
    cmd
  }

  /** Python's `s[1:]`. */
  function Drop1(s: string): string {
    if s == [] then [] else s[1..]
  }

  /** What `run_single` needs besides the inputs: the runner's settings, the user pattern,
      the file-system facts on each input's hypothetical output, whether `out_path` is a
      file, and the linked additional arguments. */
  datatype Setting = Setting(
    execPath: string, targetFormat: string, overwrite: bool, redoThreshold: real,
    userAt: (string, nat) -> bool, outFacts: string -> OutFile, outIsFile: bool, args: string)

  /** The lists `run_single` hands to `compute`: commands of the accepted inputs, every
      input, the output of each input and its step function (both `None` when the input was
      rejected). */
  datatype Plan = Plan(cmds: seq<string>, ins: seq<string>, outs: seq<Option<string>>,
                       stepFunctions: seq<Option<PipeSteps.StepFunction>>)

  /** `execute_verbose_command`, the step function of an accepted input. */
  const VerboseCommand := PipeSteps.Callable("execute_verbose_command")

  /** `select_for_conversion` on an input and its hypothetical output. */
  function Select(s: Setting, inPath: string): Result<(bool, bool)> {
    SelectForConversion(s.userAt, s.overwrite, s.redoThreshold, inPath, s.outFacts(inPath))
  }

  /** Whether `run_single` converts an input. */
  predicate Accepted(s: Setting, inPath: string) {
    Select(s, inPath) == Ok((true, true))
  }

  /** The entry of `outs` for an input. */
  function OutOf(s: Setting, outPath: string, inPath: string): Option<string> {
    if Accepted(s, inPath) then Some(OutFileOf(s, outPath, inPath)) else None
  }

  /** The entry of `step_functions` for an input. */
  function StepFunctionOf(s: Setting, inPath: string): Option<PipeSteps.StepFunction> {
    if Accepted(s, inPath) then Some(VerboseCommand) else None
  }

  /** Where the converted input is written: `out_path` itself when it is a file, otherwise
      the output name inside it. */
  function OutFileOf(s: Setting, outPath: string, inPath: string): string {
    if s.outIsFile then outPath else PathJoin(outPath, OutFileName(inPath, s.targetFormat))
  }

  function CommandOf(s: Setting, outPath: string, inPath: string): string {
    Command(s.execPath, s.targetFormat, outPath, OutFileName(inPath, s.targetFormat), inPath, s.args)
  }

  /** One turn of the loop of `run_single`. */
  function PlanStep(prev: Plan, s: Setting, outPath: string, inPath: string): (r: Result<Plan>) {
    var sel := Select(s, inPath);
    if sel.Err? then Err(sel.error)
    else if sel.value.0 && sel.value.1 then
      Ok(Plan(prev.cmds + [CommandOf(s, outPath, inPath)], prev.ins + [inPath],
              prev.outs + [Some(OutFileOf(s, outPath, inPath))], prev.stepFunctions + [Some(VerboseCommand)]))
    else
      Ok(Plan(prev.cmds, prev.ins + [inPath], prev.outs + [None], prev.stepFunctions + [None]))
  }

  /** The loop of `run_single` over its inputs; the first error ends it. */
  function PlanAll(s: Setting, outPath: string, inPaths: seq<string>): Result<Plan>
    decreases |inPaths|
  {
    if inPaths == [] then Ok(Plan([], [], [], []))
    else
      var prev := PlanAll(s, outPath, inPaths[..|inPaths| - 1]);
      if prev.Err? then prev else PlanStep(prev.value, s, outPath, inPaths[|inPaths| - 1])
  }

  /** The commands of the accepted inputs, in input order. */
  function AcceptedCommands(s: Setting, outPath: string, inPaths: seq<string>): seq<string>
    decreases |inPaths|
  {
    if inPaths == [] then []
    else
      var last := inPaths[|inPaths| - 1];
      AcceptedCommands(s, outPath, inPaths[..|inPaths| - 1]) + (if Accepted(s, last) then [CommandOf(s, outPath, last)] else [])
  }

  /** `run_single` fails exactly when some input's output check fails. */
  lemma {:induction false} PlanAllFails(s: Setting, outPath: string, inPaths: seq<string>)
    ensures PlanAll(s, outPath, inPaths).Err? <==> exists i :: 0 <= i < |inPaths| && Fails(s, inPaths[i])
    decreases |inPaths|
  {
    if inPaths != [] {
      var n := |inPaths| - 1;
      var init := inPaths[..n];
      PlanAllFails(s, outPath, init);
      TakeSnoc(inPaths, n);
      TakeAll(inPaths);
      PlanStepFails(PlanAll(s, outPath, init), s, outPath, inPaths[n]);
      assert PlanAll(s, outPath, inPaths).Err? <==> PlanAll(s, outPath, init).Err? || Fails(s, inPaths[n]);
      if PlanAll(s, outPath, init).Err? {
        var i :| 0 <= i < n && Fails(s, init[i]);
        assert init[i] == inPaths[i];
      } else if exists i :: 0 <= i < |inPaths| && Fails(s, inPaths[i]) {
        var i :| 0 <= i < |inPaths| && Fails(s, inPaths[i]);
        assert i == n;
      }
    }
  }

  lemma PlanStepFails(prev: Result<Plan>, s: Setting, outPath: string, inPath: string)
    ensures var next := if prev.Err? then prev else PlanStep(prev.value, s, outPath, inPath);
            next.Err? <==> prev.Err? || Fails(s, inPath)
  {
  }

  /** An input whose output check raises. */
  predicate Fails(s: Setting, inPath: string) {
    Select(s, inPath).Err?
  }

  /** Otherwise `ins`, `outs` and `step_functions` hold one entry per input; `outs[i]` is
      the output of input `i` and `step_functions[i]` is `execute_verbose_command` when the
      input is accepted, and both are `None` when it is not. */
  lemma {:induction false} PlanAllOuts(s: Setting, outPath: string, inPaths: seq<string>)
    requires PlanAll(s, outPath, inPaths).Ok?
    ensures var p := PlanAll(s, outPath, inPaths).value;
            && p.ins == inPaths && |p.outs| == |inPaths|
            && |p.stepFunctions| == |inPaths|
            && (forall i :: 0 <= i < |inPaths| ==> p.outs[i] == OutOf(s, outPath, inPaths[i]))
            && (forall i :: 0 <= i < |inPaths| ==> p.stepFunctions[i] == StepFunctionOf(s, inPaths[i]))
            && (forall i :: 0 <= i < |inPaths| ==> (p.stepFunctions[i].None? <==> p.outs[i].None?))
    decreases |inPaths|
  {
    if inPaths != [] {
      var n := |inPaths| - 1;
      PlanAllOuts(s, outPath, inPaths[..n]);
      var p := PlanAll(s, outPath, inPaths).value;
      var q := PlanAll(s, outPath, inPaths[..n]).value;
      assert p.outs == q.outs + [OutOf(s, outPath, inPaths[n])];
      assert p.stepFunctions == q.stepFunctions + [StepFunctionOf(s, inPaths[n])];
      TakeSnoc(inPaths, n);
      TakeAll(inPaths);
    }
  }

  /** ... and `cmds` holds the commands of the accepted inputs only, in input order. */
  lemma {:induction false} PlanAllCommands(s: Setting, outPath: string, inPaths: seq<string>)
    requires PlanAll(s, outPath, inPaths).Ok?
    ensures PlanAll(s, outPath, inPaths).value.cmds == AcceptedCommands(s, outPath, inPaths)
    decreases |inPaths|
  {
    if inPaths != [] {
      PlanAllCommands(s, outPath, inPaths[..|inPaths| - 1]);
    }
  }

  /** The `in_out` argument `run_single` hands to `compute`: inputs and outputs under the
      step's data ids. */
  function InOut(ins: Value, outs: Value): Value {
    VDict([Entry("in_paths", VDict([Entry("raw_data_paths", ins)])),
           Entry("out_path", VDict([Entry("community_formatted_data_paths", outs)]))])
  }

  function StrValues(xs: seq<string>): (vs: seq<Value>)
    ensures |vs| == |xs| && forall i :: 0 <= i < |xs| ==> vs[i] == VStr(xs[i])
  {
    seq(|xs|, i requires 0 <= i < |xs| => VStr(xs[i]))
  }

  function OptionValues(xs: seq<Option<string>>): (vs: seq<Value>)
    ensures |vs| == |xs| && forall i :: 0 <= i < |xs| ==> vs[i] == if xs[i].Some? then VStr(xs[i].value) else VNone
  {
    seq(|xs|, i requires 0 <= i < |xs| => if xs[i].Some? then VStr(xs[i].value) else VNone)
  }

  /** The keyword arguments of the single `compute` call that ends `run_single` as written:
      the lists themselves. */
  function ListedArgs(p: Plan, logPath: Value, verbosity: Value): seq<Entry> {
    [Entry("cmd", VList(StrValues(p.cmds))),
     Entry("in_out", InOut(VList(StrValues(p.ins)), VList(OptionValues(p.outs)))),
     Entry("log_path", logPath), Entry("verbosity", verbosity)]
  }

  /** `run_single` as written: after the loop, `compute` is called once, with the list of
      step functions as the step function and the lists as arguments. */
  function RunSingleAsWritten(workers: int, s: Setting, outPath: string, inPaths: seq<string>,
                              logPath: Value, verbosity: Value): Result<PipeSteps.Record>
  {
    var plan := PlanAll(s, outPath, inPaths);
    if plan.Err? then Err(plan.error)
    else PipeSteps.Invoke(workers, PipeSteps.Functions(plan.value.stepFunctions), ListedArgs(plan.value, logPath, verbosity), [])
  }

  /** With one worker the list is called at once, which raises `TypeError` whenever the loop
      got through: no input is ever converted. */
  lemma ListCallRaises(workers: int, s: Setting, outPath: string, inPaths: seq<string>, logPath: Value, verbosity: Value)
    requires workers <= 1
    ensures RunSingleAsWritten(workers, s, outPath, inPaths, logPath, verbosity).Err?
    ensures PlanAll(s, outPath, inPaths).Ok? ==>
              RunSingleAsWritten(workers, s, outPath, inPaths, logPath, verbosity) == Err(TypeError)
  {
  }

  /** With more workers the list itself is delayed, as one call over the lists of every
      input, and nothing is converted before the futures are computed. */
  lemma ListCallDelayed(workers: int, s: Setting, outPath: string, inPaths: seq<string>, logPath: Value, verbosity: Value)
    requires workers > 1 && PlanAll(s, outPath, inPaths).Ok?
    ensures var p := PlanAll(s, outPath, inPaths).value;
            var r := RunSingleAsWritten(workers, s, outPath, inPaths, logPath, verbosity);
            && r.Ok?
            && r.value.future == Some(PipeSteps.Delayed(PipeSteps.Functions(p.stepFunctions), ListedArgs(p, logPath, verbosity)))
            && r.value.inOut == InOut(VList(StrValues(p.ins)), VList(OptionValues(p.outs)))
  {
    var args := ListedArgs(PlanAll(s, outPath, inPaths).value, logPath, verbosity);
    assert "cmd"[0] != "in_out"[0];
    assert Lookup(args, "in_out") == Lookup(args[1..], "in_out");
  }

  /** One `compute` call: the step function and its keyword arguments. */
  datatype Call = Call(stepFunction: PipeSteps.StepFunction, kwargs: seq<Entry>)

  /** The `compute` call intended for an accepted input: its command line, with `in_out`
      naming that input and its output. */
  function CallOf(s: Setting, outPath: string, inPath: string, logPath: Value, verbosity: Value): Call {
    Call(PipeSteps.Command(CommandOf(s, outPath, inPath)),
         [Entry("in_out", InOut(VStr(inPath), VStr(OutFileOf(s, outPath, inPath)))),
          Entry("log_path", logPath), Entry("verbosity", verbosity)])
  }

  /** The inputs `run_single` converts, in input order. */
  function AcceptedInputs(s: Setting, inPaths: seq<string>): (acc: seq<string>)
    ensures forall x :: x in acc ==> x in inPaths && Accepted(s, x)
    decreases |inPaths|
  {
    if inPaths == [] then []
    else
      var last := inPaths[|inPaths| - 1];
      AcceptedInputs(s, inPaths[..|inPaths| - 1]) + (if Accepted(s, last) then [last] else [])
  }

  lemma AcceptedInputsSnoc(s: Setting, inPaths: seq<string>, k: nat)
    requires k < |inPaths|
    ensures AcceptedInputs(s, inPaths[..k + 1])
         == AcceptedInputs(s, inPaths[..k]) + (if Accepted(s, inPaths[k]) then [inPaths[k]] else [])
  {
    assert inPaths[..k + 1][..k] == inPaths[..k];
  }

  /** Every accepted input is among them. */
  lemma {:induction false} AcceptedInputsCover(s: Setting, inPaths: seq<string>, i: nat)
    requires i < |inPaths| && Accepted(s, inPaths[i])
    ensures inPaths[i] in AcceptedInputs(s, inPaths)
    decreases |inPaths|
  {
    var n := |inPaths| - 1;
    if i < n {
      assert inPaths[..n][i] == inPaths[i];
      AcceptedInputsCover(s, inPaths[..n], i);
    }
  }

  /** Their commands are the ones the loop collects. */
  lemma {:induction false} AcceptedInputsCommands(s: Setting, outPath: string, inPaths: seq<string>)
    ensures var acc := AcceptedInputs(s, inPaths);
            var cmds := AcceptedCommands(s, outPath, inPaths);
            |cmds| == |acc| && forall j :: 0 <= j < |acc| ==> cmds[j] == CommandOf(s, outPath, acc[j])
    decreases |inPaths|
  {
    if inPaths != [] {
      AcceptedInputsCommands(s, outPath, inPaths[..|inPaths| - 1]);
    }
  }

  /** The intended calls of `run_single`: one per accepted input, in input order. */
  function Calls(s: Setting, outPath: string, inPaths: seq<string>, logPath: Value, verbosity: Value): seq<Call> {
    var acc := AcceptedInputs(s, inPaths);
    seq(|acc|, j requires 0 <= j < |acc| => CallOf(s, outPath, acc[j], logPath, verbosity))
  }

  /** The intended calls run exactly the commands the loop collects, in order, and every
      accepted input has its call. */
  lemma CallsCommands(s: Setting, outPath: string, inPaths: seq<string>, logPath: Value, verbosity: Value)
    ensures var calls := Calls(s, outPath, inPaths, logPath, verbosity);
            var cmds := AcceptedCommands(s, outPath, inPaths);
            |calls| == |cmds| && forall j :: 0 <= j < |calls| ==> calls[j].stepFunction == PipeSteps.Command(cmds[j])
    ensures forall i :: 0 <= i < |inPaths| && Accepted(s, inPaths[i]) ==>
              CallOf(s, outPath, inPaths[i], logPath, verbosity) in Calls(s, outPath, inPaths, logPath, verbosity)
  {
    AcceptedInputsCommands(s, outPath, inPaths);
    var acc := AcceptedInputs(s, inPaths);
    var calls := Calls(s, outPath, inPaths, logPath, verbosity);
    forall i | 0 <= i < |inPaths| && Accepted(s, inPaths[i])
      ensures CallOf(s, outPath, inPaths[i], logPath, verbosity) in calls
    {
      AcceptedInputsCover(s, inPaths, i);
      var j :| 0 <= j < |acc| && acc[j] == inPaths[i];
      assert calls[j] == CallOf(s, outPath, inPaths[i], logPath, verbosity);
    }
  }

  /** The outcome of making calls in order: the records stored, and the error of the call
      that raised, after which no call is made. */
  datatype Computed = Computed(records: seq<PipeSteps.Record>, failure: Option<Error>)

  /** What `compute` makes of one call, where `respond` gives what the call returns when it
      is made at once. */
  function Outcome(workers: int, respond: Call -> seq<Value>): Call -> Result<PipeSteps.Record> {
    (call: Call) => PipeSteps.Invoke(workers, call.stepFunction, call.kwargs, respond(call))
  }

  /** The calls made in turn: each stores the record `make` gives it, until one raises. */
  function ComputeCalls(calls: seq<Call>, make: Call -> Result<PipeSteps.Record>): (c: Computed)
    ensures |c.records| <= |calls|
    ensures c.failure.None? ==> |c.records| == |calls|
    ensures forall j :: 0 <= j < |c.records| ==> make(calls[j]) == Ok(c.records[j])
    ensures c.failure.Some? ==> |c.records| < |calls| && make(calls[|c.records|]) == Err(c.failure.value)
    decreases |calls|
  {
    if calls == [] then Computed([], None)
    else
      var prev := ComputeCalls(calls[..|calls| - 1], make);
      if prev.failure.Some? then prev
      else
        match make(calls[|calls| - 1])
        case Err(e) => Computed(prev.records, Some(e))
        case Ok(rec) => Computed(prev.records + [rec], None)
  }

  lemma ComputeCallsSnoc(calls: seq<Call>, make: Call -> Result<PipeSteps.Record>, j: nat)
    requires j < |calls| && ComputeCalls(calls[..j], make).failure.None?
    ensures var prev := ComputeCalls(calls[..j], make);
            ComputeCalls(calls[..j + 1], make)
              == match make(calls[j])
                 case Err(e) => Computed(prev.records, Some(e))
                 case Ok(rec) => Computed(prev.records + [rec], None)
  {
    assert calls[..j + 1][..j] == calls[..j];
  }

  /** Once a call has raised, the remaining calls change nothing. */
  lemma {:induction false} ComputeCallsFailed(calls: seq<Call>, make: Call -> Result<PipeSteps.Record>, k: nat)
    requires k <= |calls| && ComputeCalls(calls[..k], make).failure.Some?
    ensures ComputeCalls(calls, make) == ComputeCalls(calls[..k], make)
    decreases |calls| - k
  {
    if k < |calls| {
      TakeSnoc(calls, k);
      ComputeCallsFailed(calls, make, k + 1);
    } else {
      TakeAll(calls);
    }
  }

  /** With the intended calls every accepted input is converted: when the calls are delayed,
      or every command responds, none raises, and the progress afterwards holds the
      combination of each accepted input and its output. */
  lemma RunSingleConvertsAccepted(workers: int, s: Setting, outPath: string, inPaths: seq<string>, logPath: Value,
                                  verbosity: Value, respond: Call -> seq<Value>, p: PipeSteps.Progress, i: nat)
    requires PipeSteps.Aligned(p)
    requires workers > 1 || forall c :: respond(c) != []
    requires i < |inPaths| && Accepted(s, inPaths[i])
    ensures var c := ComputeCalls(Calls(s, outPath, inPaths, logPath, verbosity), Outcome(workers, respond));
            && c.failure.None?
            && InOut(VStr(inPaths[i]), VStr(OutFileOf(s, outPath, inPaths[i]))) in PipeSteps.StoreAll(p, c.records).ios
  {
    var calls := Calls(s, outPath, inPaths, logPath, verbosity);
    var c := ComputeCalls(calls, Outcome(workers, respond));
    CallsCommands(s, outPath, inPaths, logPath, verbosity);
    assert c.failure.None?;
    var call := CallOf(s, outPath, inPaths[i], logPath, verbosity);
    var j :| 0 <= j < |calls| && calls[j] == call;
    var rec := c.records[j];
    assert Outcome(workers, respond)(call) == Ok(rec);
    assert PipeSteps.Invoke(workers, call.stepFunction, call.kwargs, respond(call)) == Ok(rec);
    assert rec == PipeSteps.ComputeRecord(workers, call.stepFunction, call.kwargs, respond(call));
    assert Lookup(call.kwargs, "in_out") == Some(InOut(VStr(inPaths[i]), VStr(OutFileOf(s, outPath, inPaths[i]))));
    assert rec.inOut == InOut(VStr(inPaths[i]), VStr(OutFileOf(s, outPath, inPaths[i])));
    PipeSteps.StoreAllStores(p, c.records, j);
  }

  /** `run_single(in_paths, out_path)`, with the `compute` call its lists were evidently
      meant for: the loop collects one call per accepted input, and each is then computed on
      `step` in turn. A failed output check ends the loop before anything is computed. */
  method RunSingle(step: PipeSteps.PipeStep, s: Setting, outPath: string, inPaths: seq<string>, logPath: Value,
                   verbosity: Value, respond: Call -> seq<Value>) returns (r: Result<Plan>)
    requires step.Valid()
    modifies step`processedIos, step`logPaths, step`outs, step`errs, step`results, step`futures
    ensures step.Valid()
    ensures PlanAll(s, outPath, inPaths).Err? ==> r == PlanAll(s, outPath, inPaths) && step.State() == old(step.State())
    ensures PlanAll(s, outPath, inPaths).Ok? ==>
              var c := ComputeCalls(Calls(s, outPath, inPaths, logPath, verbosity), Outcome(step.workers, respond));
              && step.State() == PipeSteps.StoreAll(old(step.State()), c.records)
              && r == if c.failure.Some? then Err(c.failure.value) else PlanAll(s, outPath, inPaths)
  {
    var cmds, ins, outs, stepFunctions := [], [], [], [];
    var accepted := [];
    var k := 0;
    while k < |inPaths|
      invariant 0 <= k <= |inPaths|
      invariant PlanAll(s, outPath, inPaths[..k]) == Ok(Plan(cmds, ins, outs, stepFunctions))
      invariant accepted == AcceptedInputs(s, inPaths[..k])
      invariant step.Valid() && step.State() == old(step.State())
    {
      var inPath := inPaths[k];
      ghost var prev := Plan(cmds, ins, outs, stepFunctions);
      TakeSnoc(inPaths, k);
      PlanAllSnoc(s, outPath, inPaths[..k], inPath);
      AcceptedInputsSnoc(s, inPaths, k);
      var sel := Select(s, inPath);
      if sel.Err? {
        PlanAllFailed(s, outPath, inPaths, k + 1);
        return Err(sel.error);
      }
      if sel.value.0 && sel.value.1 {
        outs := outs + [Some(OutFileOf(s, outPath, inPath))];
        stepFunctions := stepFunctions + [Some(VerboseCommand)];
        cmds := cmds + [CommandOf(s, outPath, inPath)];
        accepted := accepted + [inPath];
      } else {
        stepFunctions := stepFunctions + [None];
        outs := outs + [None];
      }
      ins := ins + [inPath];
      assert Ok(Plan(cmds, ins, outs, stepFunctions)) == PlanStep(prev, s, outPath, inPath);
      k := k + 1;
    }
    TakeAll(inPaths);
    r := Ok(Plan(cmds, ins, outs, stepFunctions));
    var calls := seq(|accepted|, j requires 0 <= j < |accepted| => CallOf(s, outPath, accepted[j], logPath, verbosity));
    var failure := ComputeAll(step, calls, respond);
    if failure.Some? {
      r := Err(failure.value);
    }
  }

  /** `compute` on each call in turn, until one raises. */
  method ComputeAll(step: PipeSteps.PipeStep, calls: seq<Call>, respond: Call -> seq<Value>) returns (failure: Option<Error>)
    requires step.Valid()
    modifies step`processedIos, step`logPaths, step`outs, step`errs, step`results, step`futures
    ensures step.Valid()
    ensures var c := ComputeCalls(calls, Outcome(step.workers, respond));
            step.State() == PipeSteps.StoreAll(old(step.State()), c.records) && failure == c.failure
  {
    var j := 0;
    while j < |calls|
      invariant 0 <= j <= |calls|
      invariant step.Valid()
      invariant ComputeCalls(calls[..j], Outcome(step.workers, respond)).failure.None?
      invariant step.State() == PipeSteps.StoreAll(old(step.State()), ComputeCalls(calls[..j], Outcome(step.workers, respond)).records)
    {
      ghost var make := Outcome(step.workers, respond);
      ghost var before := ComputeCalls(calls[..j], make);
      ComputeCallsSnoc(calls, make, j);
      assert make(calls[j]) == PipeSteps.Invoke(step.workers, calls[j].stepFunction, calls[j].kwargs, respond(calls[j]));
      var res := step.Compute(calls[j].stepFunction, calls[j].kwargs, respond(calls[j]));
      if res.Err? {
        ComputeCallsFailed(calls, make, j + 1);
        return Some(res.error);
      }
      PipeSteps.StoreAllSnoc(old(step.State()), before.records, make(calls[j]).value);
      j := j + 1;
    }
    TakeAll(calls);
    failure := None;
  }

  lemma PlanAllSnoc(s: Setting, outPath: string, inPaths: seq<string>, inPath: string)
    ensures var prev := PlanAll(s, outPath, inPaths);
            PlanAll(s, outPath, inPaths + [inPath]) == if prev.Err? then prev else PlanStep(prev.value, s, outPath, inPath)
  {
    assert (inPaths + [inPath])[..|inPaths|] == inPaths;
  }

  /** Once the loop has failed, the remaining inputs change nothing. */
  lemma {:induction false} PlanAllFailed(s: Setting, outPath: string, inPaths: seq<string>, k: nat)
    requires k <= |inPaths| && PlanAll(s, outPath, inPaths[..k]).Err?
    ensures PlanAll(s, outPath, inPaths) == PlanAll(s, outPath, inPaths[..k])
    decreases |inPaths| - k
  {
    if k < |inPaths| {
      TakeSnoc(inPaths, k);
      PlanAllFailed(s, outPath, inPaths, k + 1);
    } else {
      TakeAll(inPaths);
    }
  }

  /** The schedule `main` sets: the input directory as raw data, the output directory as
      converted data, and `run_style` `"nested"` exactly when `nested` is set. */
  function MainSchedule(inDir: Value, outDir: Value, nested: bool): (io: seq<Entry>)
    ensures WellFormed(io)
    ensures Lookup(io, "in_paths") == Some(VDict([Entry("raw_data_paths", inDir)]))
    ensures Lookup(io, "out_path") == Some(VDict([Entry("community_formatted_data_paths", outDir)]))
    ensures Lookup(io, "run_style").Some? <==> nested
    ensures nested ==> Lookup(io, "run_style") == Some(VStr("nested"))
  {
    var base := [Entry("in_paths", VDict([Entry("raw_data_paths", inDir)])),
                 Entry("out_path", VDict([Entry("community_formatted_data_paths", outDir)]))];
    assert Keys(base) == ["in_paths", "out_path"];
    var io := if nested then base + [Entry("run_style", VStr("nested"))] else base;
    assert Keys(io) == if nested then ["in_paths", "out_path", "run_style"] else ["in_paths", "out_path"];
    io
  }

  /** The runner's matching configuration: the user pattern for raw data defaults to `.*`,
      the mandatory one is fixed. */
  datatype Runner = Runner(
    execPath: string, targetFormat: string, redoThreshold: real, overwrite: bool,
    patterns: map<string, string>, mandatoryPatterns: map<string, string>)

  /** `MSconvert_Runner(...)`: the target format normalised, the mandatory pattern set for
      raw data. */
  function NewRunner(execPath: string, targetFormat: string, redoThreshold: real, overwrite: bool): (r: Runner)
    ensures StartsWith(r.targetFormat, ".") && r.targetFormat == TargetFormat(targetFormat)
    ensures r.mandatoryPatterns == map["raw_data_paths" := MandatoryPattern()]
    ensures r.patterns == map["raw_data_paths" := ".*"]
  {
    Runner(execPath, TargetFormat(targetFormat), redoThreshold, overwrite,
           map["raw_data_paths" := ".*"], map["raw_data_paths" := MandatoryPattern()])
  }
}
