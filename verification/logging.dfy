/** Output capture and the message accumulator of the logging helper. */
module Logging {
  import opened Wrappers
  import opened Text
  import opened Sequences

  /** A text stream. A plain stream has no `original`; a tee stream (`TeeStream`) forwards
      every write to its `original` and keeps its own `log` of what it was given. For a plain
      stream `log` is what it has shown so far. */
  class Stream {
    const original: Stream?
    var log: seq<string>

    /** A plain stream, the process's own standard output or error. */
    constructor Plain()
      ensures original == null && log == []
    {
      original := null;
      log := [];
    }

    /** `TeeStream(original_stream)`: forwards to `original`, with an empty log. */
    constructor Tee(original: Stream)
      requires original.original == null
      ensures this.original == original && log == []
    {
      this.original := original;
      log := [];
    }

    /** `TeeStream.write`: the data goes to the original stream and onto `log`. */
    method Write(data: string)
      requires original != this
      modifies this, original
      ensures log == old(log) + [data]
      ensures original != null ==> original.log == old(original.log) + [data]
    {
      if original != null {
        original.log := original.log + [data];
      }
      log := log + [data];
    }
  }

  /** The interpreter state `capture_and_log` touches: `sys.stdout`, `sys.stderr` and the
      files it writes. */
  class Console {
    var stdout: Stream
    var stderr: Stream
    var files: map<string, string>

    constructor (stdout: Stream, stderr: Stream)
      ensures this.stdout == stdout && this.stderr == stderr && files == map[]
    {
      this.stdout := stdout;
      this.stderr := stderr;
      files := map[];
    }
  }

  /** The text `capture_and_log` writes to its log file. */
  function CaptureLogText(out: seq<string>, err: seq<string>): string {
    "out:\n" + Join(out, "") + "\n\n\nerr:\n" + Join(err, "")
  }

  /** `capture_and_log(func, log_path=logPath)` for a `func` that writes `outWrites` to
      standard output and then `errWrites` to standard error, and then returns `results`
      or raises `raised`. Standard output and error are swapped for tee streams while it
      runs; `logPath` "" stands for no log file. On a return the log file is written and the
      original streams are restored. A raise propagates at once: there is no `finally`, so
      no log file is written and the tee streams stay installed. */
  method CaptureAndLog<R>(sys: Console, results: R, raised: Option<Error>, outWrites: seq<string>,
                          errWrites: seq<string>, logPath: string)
    returns (r: Result<R>, out: seq<string>, err: seq<string>)
    requires sys.stdout.original == null && sys.stderr.original == null
    modifies sys, sys.stdout, sys.stderr
    ensures out == outWrites && err == errWrites
    ensures old(sys.stdout) != old(sys.stderr) ==> old(sys.stdout).log == old(sys.stdout.log) + outWrites
    ensures old(sys.stdout) != old(sys.stderr) ==> old(sys.stderr).log == old(sys.stderr.log) + errWrites
    ensures old(sys.stdout) == old(sys.stderr) ==> old(sys.stdout).log == old(sys.stdout.log) + outWrites + errWrites
    ensures raised.None? ==>
              && r == Ok(results)
              && sys.stdout == old(sys.stdout) && sys.stderr == old(sys.stderr)
              && sys.files == if logPath != "" then old(sys.files)[logPath := CaptureLogText(out, err)]
                              else old(sys.files)
    ensures raised.Some? ==>
              && r == Err(raised.value)
              && fresh(sys.stdout) && sys.stdout.original == old(sys.stdout) && sys.stdout.log == outWrites
              && fresh(sys.stderr) && sys.stderr.original == old(sys.stderr) && sys.stderr.log == errWrites
              && sys.files == old(sys.files)
  {
    var originalStdout := sys.stdout;
    var originalStderr := sys.stderr;
    var teeOut := new Stream.Tee(originalStdout);
    var teeErr := new Stream.Tee(originalStderr);
    sys.stdout := teeOut;
    sys.stderr := teeErr;

    var i := 0;
    while i < |outWrites|
      invariant 0 <= i <= |outWrites|
      invariant sys.stdout == teeOut && sys.stderr == teeErr && sys.files == old(sys.files)
      invariant teeOut.log == outWrites[..i] && teeErr.log == []
      invariant originalStdout.log == old(originalStdout.log) + outWrites[..i]
      invariant originalStdout != originalStderr ==> originalStderr.log == old(originalStderr.log)
    {
      sys.stdout.Write(outWrites[i]);
      i := i + 1;
    }
    i := 0;
    while i < |errWrites|
      invariant 0 <= i <= |errWrites|
      invariant sys.stdout == teeOut && sys.stderr == teeErr && sys.files == old(sys.files)
      invariant teeOut.log == outWrites && teeErr.log == errWrites[..i]
      invariant originalStdout != originalStderr ==> originalStdout.log == old(originalStdout.log) + outWrites
      invariant originalStdout != originalStderr ==> originalStderr.log == old(originalStderr.log) + errWrites[..i]
      invariant originalStdout == originalStderr ==>
                  originalStdout.log == old(originalStdout.log) + outWrites + errWrites[..i]
    {
      sys.stderr.Write(errWrites[i]);
      i := i + 1;
    }
    TakeAll(outWrites);
    TakeAll(errWrites);

    out := teeOut.log;
    err := teeErr.log;
    if raised.Some? {
      return Err(raised.value), out, err;
    }
    r := Ok(results);
    if logPath != "" {
      sys.files := sys.files[logPath := CaptureLogText(out, err)];
    }
    sys.stdout := originalStdout;
    sys.stderr := originalStderr;
  }

  /** The message a logger with a log file starts with. */
  function Announcement(path: string): string {
    "Saving log file to " + path
  }

  /** What `Logger.to_dict` returns. */
  datatype LogRecord = LogRecord(out: string, err: string, logFilePath: Option<string>)

  /** The accumulator behind `logger`. `logFile` is the text this logger has appended to its
      log file; `shown` the messages printed to the console and `warned` those issued as
      warnings (both without their timestamp and program prefix). */
  class Logger {
    var out: string
    var err: string
    var logFilePath: Option<string>
    var logFile: string
    var shown: seq<string>
    var warned: seq<string>

    /** Nothing is written to a log file when there is none. */
    predicate Valid()
      reads this
    {
      logFilePath.None? ==> logFile == ""
    }

    /** `Logger(log_file_path)`; `path` "" stands for no path, and `absPath` is
        `os.path.abspath(path)`, which depends on the working directory. */
    constructor (path: string, absPath: string)
      ensures Valid()
      ensures path == "" ==> out == "" && logFilePath == None && shown == []
      ensures path != "" ==> out == Announcement(path) && logFilePath == Some(absPath)
                             && logFile == "\n" + out && shown == [out]
      ensures err == "" && warned == []
    {
      out := "";
      err := "";
      logFile := "";
      shown := [];
      warned := [];
      logFilePath := if path != "" then Some(absPath) else None;
      new;
      if path != "" {
        FirstLog(Announcement(path));
      }
    }

    /** The first message of a fresh logger with a log file, as `log` records it. */
    method FirstLog(message: string)
      requires Valid() && logFilePath.Some? && out == "" && err == "" && logFile == "" && shown == []
      modifies this`out, this`logFile, this`shown
      ensures Valid() && out == message && err == "" && logFile == "\n" + message && shown == [message]
    {
      Log(message, 0, 0);
      AppendEmpty(message);
      AppendEmpty("\n" + message);
      AppendEmpty([message]);
    }

    /** `to_dict`. */
    method ToDict() returns (d: LogRecord)
      ensures d.out == out && d.err == err && d.logFilePath == logFilePath
    {
      d := LogRecord(out, err, logFilePath);
    }

    /** `write_log_file` with the logger's own path: append a new line and the output. */
    method WriteLogFile(output: string)
      requires Valid()
      modifies this`logFile
      ensures Valid()
      ensures logFile == if logFilePath.Some? then old(logFile) + "\n" + output else old(logFile)
    {
      if logFilePath.Some? {
        logFile := logFile + "\n" + output;
      }
    }

    /** `to_out`: `out` grows by exactly `output`. */
    method ToOut(output: string)
      requires Valid()
      modifies this`out, this`logFile
      ensures Valid()
      ensures out == old(out) + output && StartsWith(out, old(out))
      ensures logFile == if logFilePath.Some? then old(logFile) + "\n" + output else old(logFile)
    {
      out := out + output;
      WriteLogFile(output);
    }

    /** `to_err`: `err` grows by exactly `output`. */
    method ToErr(output: string)
      requires Valid()
      modifies this`err, this`logFile
      ensures Valid()
      ensures err == old(err) + output && StartsWith(err, old(err))
      ensures logFile == if logFilePath.Some? then old(logFile) + "\n" + output else old(logFile)
    {
      err := err + output;
      WriteLogFile(output);
    }

    /** `log`: always recorded in `out`; printed only when `verbosity >= minimumVerbosity`. */
    method Log(message: string, minimumVerbosity: int, verbosity: int)
      requires Valid()
      modifies this`out, this`logFile, this`shown
      ensures Valid()
      ensures out == old(out) + message && err == old(err)
      ensures logFile == if logFilePath.Some? then old(logFile) + "\n" + message else old(logFile)
      ensures shown == if verbosity >= minimumVerbosity then old(shown) + [message] else old(shown)
    {
      ToOut(message);
      if verbosity >= minimumVerbosity {
        shown := shown + [message];
      }
    }

    /** `warn`: recorded in `out` and issued as a warning. */
    method Warn(message: string)
      requires Valid()
      modifies this`out, this`logFile, this`warned
      ensures Valid()
      ensures out == old(out) + message && err == old(err) && shown == old(shown)
      ensures logFile == if logFilePath.Some? then old(logFile) + "\n" + message else old(logFile)
      ensures warned == old(warned) + [message]
    {
      ToOut(message);
      warned := warned + [message];
    }

    /** `error`: recorded in `err`; the error of kind `errorType` is raised when `raiseError`,
        and returned otherwise. */
    method Fail(message: string, errorType: Error, raiseError: bool) returns (r: Result<Error>)
      requires Valid()
      modifies this`err, this`logFile
      ensures Valid()
      ensures err == old(err) + message && out == old(out)
      ensures logFile == if logFilePath.Some? then old(logFile) + "\n" + message else old(logFile)
      ensures r == if raiseError then Err(errorType) else Ok(errorType)
    {
      ToErr(message);
      if raiseError {
        return Err(errorType);
      }
      return Ok(errorType);
    }
  }
}
