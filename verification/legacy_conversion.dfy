/** The older `File_Converter` of the `source` package: the entry check of a conversion and
    the conversion of one file, which records its progress in four parallel lists. */
module LegacyConversion {
  import opened Wrappers
  import opened Text
  import opened StepValues
  import Helpers
  import MSConvert

  /** The attributes `File_Converter.__init__` sets: first those of the base
      `Pipe_Step.__init__` (which stores `save_out`, `additional_args` and `verbosity`, and
      starts the four progress lists), then the converter's own. */
  const InitAttributes: seq<string> := [
    "additional_args", "verbosity", "save_out", "processed_in", "processed_out", "outs", "errs",
    "redo_threshold", "overwrite", "platform", "target_format", "suffix", "prefix", "contains"]

  /** The log file `convert_file` has the shell write into the output directory. */
  const LogName := "msconv_log.txt"

  /** The log path argument of `convert_file` as written: it reads `self.save_log`, which
      raises `AttributeError` unless the converter has that attribute. */
  function LogPathAsWritten(attributes: seq<string>, saveLog: bool, outPath: string): (r: Result<Option<string>>)
    ensures r.Err? <==> "save_log" !in attributes
    ensures r.Err? ==> r.error == AttributeError
    ensures r.Ok? ==> (r.value.Some? <==> saveLog)
  {
    if "save_log" !in attributes then Err(AttributeError)
    else Ok(if saveLog then Some(PathJoin(outPath, LogName)) else None)
  }

  /** No `__init__` sets `save_log`: the flag is stored as `save_out`, so every
      `convert_file` call raises before the shell is called, and nothing is recorded. */
  lemma LogFlagMissing(saveLog: bool, outPath: string)
    ensures "save_out" in InitAttributes
    ensures LogPathAsWritten(InitAttributes, saveLog, outPath) == Err(AttributeError)
  {
  }

  /** The log path argument as intended: inside the output directory when the log flag the
      converter stores is set, otherwise none. */
  function LogPath(saveOut: bool, outPath: string): (r: Option<string>)
    ensures r.Some? <==> saveOut
    ensures r.Some? ==> EndsWith(r.value, LogName)
  {
    if saveOut then Some(PathJoin(outPath, LogName)) else None
  }

  /** The two agree whenever the flag can be read. */
  lemma LogPathAgrees(attributes: seq<string>, saveLog: bool, outPath: string)
    requires "save_log" in attributes
    ensures LogPathAsWritten(attributes, saveLog, outPath) == Ok(LogPath(saveLog, outPath))
  {
  }

  /** The origin half of `check_entry`: each of `suffix`, `prefix` and `contains` that is set
      must hold of the input path. */
  predicate OriginValid(suffix: string, prefix: string, contains: string, inPath: string) {
    (suffix == "" || EndsWith(inPath, suffix))
    && (prefix == "" || StartsWith(inPath, prefix))
    && (contains == "" || Contains(inPath, contains))
  }

  /** `check_entry(in_path, out_path)`: the pair (origin valid, target valid). The target
      test is the one the newer converter makes, in the same order. */
  function CheckEntry(suffix: string, prefix: string, contains: string, overwrite: bool, redoThreshold: real,
                      inPath: string, out: MSConvert.OutFile): (r: Result<(bool, bool)>)
    ensures r.Ok? ==> (r.value.0 <==> OriginValid(suffix, prefix, contains, inPath))
    ensures r.Ok? ==> (r.value.1 <==> overwrite || !MSConvert.Complete(out, redoThreshold))
    ensures r.Err? <==> !overwrite && out.isFile && out.size as real >= redoThreshold && out.lastLine.Err?
  {
    var targetValid := MSConvert.OutValid(overwrite, redoThreshold, out);
    if targetValid.Err? then Err(targetValid.error)
    else Ok((OriginValid(suffix, prefix, contains, inPath), targetValid.value))
  }

  /** The format flag of `convert_file`: every `.` removed, then every character from index
      2 on upper-cased. */
  function LegacyTargetFormat(targetFormat: string): (r: string)
  {
    var s := Replace(targetFormat, ".", "");
    if |s| <= 2 then s else s[..2] + Upper(s[2..])
  }

  /** The flag holds no `.`, keeps the first two characters of the dot-free format and
      upper-cases the rest. */
  lemma LegacyTargetFormatSpec(targetFormat: string)
    ensures var s := Replace(targetFormat, ".", "");
            var r := LegacyTargetFormat(targetFormat);
            && '.' !in r && |r| == |s| && |r| <= |targetFormat|
            && (forall i :: 0 <= i < |s| && i < 2 ==> r[i] == s[i])
            && (forall i :: 2 <= i < |s| ==> r[i] == UpperChar(s[i]))
  {
    var s := Replace(targetFormat, ".", "");
    RemoveCharGone(targetFormat, '.');
    var r := LegacyTargetFormat(targetFormat);
    if |s| > 2 {
      forall i | 0 <= i < |r| ensures r[i] != '.' {
        if i >= 2 {
          assert r[i] == UpperChar(s[i]);
          assert s[i] in s;
        } else {
          assert s[i] in s;
        }
      }
    }
  }

  /** `mzxml` gives `mzXML`. */
  lemma LegacyTargetFormatLower()
    ensures LegacyTargetFormat("mzxml") == "mzXML"
  {
    var a := "mzxml";
    ReplaceCharAbsent(a, '.', "");
    assert Upper(a[2..]) == "XML";
  }

  /** `.mzML` gives `mzML`. */
  lemma LegacyTargetFormatDotted()
    ensures LegacyTargetFormat(".mzML") == "mzML"
  {
    var b := "mzML";
    assert ".mzML" == ['.'] + b;
    assert (['.'] + b)[..1] == "." && (['.'] + b)[1..] == b;
    ReplaceCharAbsent(b, '.', "");
    assert Upper(b[2..]) == "ML";
  }

  /** `msconvert --{fmt} --64 -o {out} {in} {args}`. */
  function LegacyCommand(format: string, outPath: string, inPath: string, additionalArgs: seq<string>): (cmd: string)
    ensures StartsWith(cmd, "msconvert --" + format + " --64 -o ")
    ensures EndsWith(cmd, " " + Join(additionalArgs, " "))
    ensures cmd == "msconvert --" + format + " --64 -o " + outPath + " " + inPath + " " + Join(additionalArgs, " ")
  {
    var head := "msconvert --" + format + " --64 -o ";
    var tail := " " + Join(additionalArgs, " ");
    var cmd := head + (outPath + " " + inPath + tail);
    assert cmd[..|head|] == head;
    assert cmd == (head + outPath + " " + inPath) + tail;
    assert cmd[|cmd| - |tail|..] == tail;
    cmd
  }

  /** The converter: the settings `__init__` stores and the four progress lists of the step. */
  class FileConverter {
    var saveOut: bool
    var additionalArgs: seq<string>
    var verbosity: int
    var redoThreshold: real
    var overwrite: bool
    var platform: string
    var targetFormat: string
    var suffix: string
    var prefix: string
    var contains: string
    var processedIn: seq<string>
    var processedOut: seq<string>
    var outs: seq<string>
    var errs: seq<string>

    /** The four lists are parallel. */
    predicate Valid()
      reads this
    {
      |processedOut| == |processedIn| && |outs| == |processedIn| && |errs| == |processedIn|
    }

    /** `File_Converter(...)`: the base `Pipe_Step.__init__` receives the log flag, the
        additional arguments and the verbosity by position, matching its own parameter
        order, and keeps all three (the flag as `save_out`); the converter then stores its
        own settings. An unset suffix, prefix or substring is the empty string. */
    constructor (platform: string, targetFormat: string, suffix: string, prefix: string, contains: string,
                 redoThreshold: real, overwrite: bool, saveLog: bool, additionalArgs: seq<string>, verbosity: int)
      ensures Valid() && processedIn == [] && processedOut == [] && outs == [] && errs == []
      ensures this.saveOut == saveLog && this.additionalArgs == additionalArgs && this.verbosity == verbosity
      ensures this.redoThreshold == redoThreshold && this.overwrite == overwrite && this.platform == platform
      ensures this.targetFormat == targetFormat && this.suffix == suffix && this.prefix == prefix && this.contains == contains
    {
      this.additionalArgs := additionalArgs;
      this.verbosity := verbosity;
      this.saveOut := saveLog;
      processedIn := [];
      processedOut := [];
      outs := [];
      errs := [];
      this.redoThreshold := redoThreshold;
      this.overwrite := overwrite;
      this.platform := platform;
      this.targetFormat := targetFormat;
      this.suffix := suffix;
      this.prefix := prefix;
      this.contains := contains;
    }

    /** `convert_file(in_path, out_path)`, reading the log flag the converter stores (see
        `LogFlagMissing` for the code as written): build the command, run it (`execute`
        stands for the shell, given the command, the verbosity and the log path, and gives
        its output and error text), and append one entry to each of the four lists. */
    method ConvertFile(inPath: string, outPath: string, execute: (string, int, Option<string>) -> (string, string))
      returns (cmd: string)
      requires Valid()
      modifies this`processedIn, this`processedOut, this`outs, this`errs
      ensures Valid()
      ensures cmd == LegacyCommand(LegacyTargetFormat(targetFormat), outPath, inPath, additionalArgs)
      ensures processedIn == old(processedIn) + [inPath] && processedOut == old(processedOut) + [outPath]
      ensures var (out, err) := execute(cmd, verbosity, LogPath(saveOut, outPath));
              outs == old(outs) + [out] && errs == old(errs) + [err]
    {
      var format := Replace(targetFormat, ".", "");
      var changed := Helpers.ChangeCaseStr(format, Some(2), Some(|format|), "upper");
      assert changed.Ok?;
      format := changed.value;
      assert format == LegacyTargetFormat(targetFormat) by {
        var s := Replace(targetFormat, ".", "");
        if |s| > 2 {
          assert forall i :: 0 <= i < |s| ==> format[i] == (s[..2] + Upper(s[2..]))[i];
        } else {
          assert forall i :: 0 <= i < |s| ==> format[i] == s[i];
        }
      }
      cmd := LegacyCommand(format, outPath, inPath, additionalArgs);
      var (out, err) := execute(cmd, verbosity, LogPath(saveOut, outPath));
      processedIn := processedIn + [inPath];
      processedOut := processedOut + [outPath];
      outs := outs + [out];
      errs := errs + [err];
    }
  }
}
