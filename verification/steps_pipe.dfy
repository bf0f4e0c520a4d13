/** `Pipe_Step`, the base class every pipeline step extends: the progress it keeps per
    processed input/output combination, the helpers that pick values out of argument
    dicts, run-style validation and choice, and the scheduling loop of `run`. */
module PipeSteps {
  import opened Wrappers
  import opened Text
  import opened StepValues
  import opened Sequences

  /** What `compute` is handed: a shell command line, some other callable, or a list of
      callables and `None`s (which is not callable). */
  datatype StepFunction = Command(cmd: string) | Callable(name: string) | Functions(items: seq<Option<StepFunction>>)

  /** A `dask.delayed` call: the function and its keyword arguments. */
  datatype Future = Delayed(call: StepFunction, kwargs: seq<Entry>)

  /** One call of `store_progress`. */
  datatype Record = Record(inOut: Value, results: Value, future: Option<Future>, out: Value, err: Value, logPath: Value)

  /** The six parallel progress lists of a step. */
  datatype Progress = Progress(
    ios: seq<Value>, logPaths: seq<Value>, outs: seq<Value>,
    errs: seq<Value>, results: seq<Value>, futures: seq<Option<Future>>)

  /** The lists have one entry per processed combination, and no combination twice. */
  predicate Aligned(p: Progress) {
    |p.logPaths| == |p.ios| && |p.outs| == |p.ios| && |p.errs| == |p.ios|
    && |p.results| == |p.ios| && |p.futures| == |p.ios| && Distinct(p.ios)
  }

  const NoProgress := Progress([], [], [], [], [], [])

  /** The progress recorded for a processed combination. */
  function At(p: Progress, io: Value): Record
    requires Aligned(p) && io in p.ios
  {
    var i := IndexOf(p.ios, io);
    Record(io, p.results[i], p.futures[i], p.outs[i], p.errs[i], p.logPaths[i])
  }

  /** `store_progress`: overwrite the entries of a combination already processed, otherwise
      append one entry to every list. */
  function Store(p: Progress, r: Record): (q: Progress)
    requires Aligned(p)
    ensures Aligned(q)
    ensures q.ios == if r.inOut in p.ios then p.ios else p.ios + [r.inOut]
  {
    if r.inOut in p.ios then
      var i := IndexOf(p.ios, r.inOut);
      p.(logPaths := p.logPaths[i := r.logPath], outs := p.outs[i := r.out], errs := p.errs[i := r.err],
         results := p.results[i := r.results], futures := p.futures[i := r.future])
    else
      Progress(p.ios + [r.inOut], p.logPaths + [r.logPath], p.outs + [r.out], p.errs + [r.err],
               p.results + [r.results], p.futures + [r.future])
  }

  /** What was stored is what is recorded for the combination afterwards, and every other
      combination keeps its record. */
  lemma StoreThenAt(p: Progress, r: Record, io: Value)
    requires Aligned(p)
    ensures At(Store(p, r), r.inOut) == r
    ensures io in p.ios && io != r.inOut ==> io in Store(p, r).ios && At(Store(p, r), io) == At(p, io)
  {
    var q := Store(p, r);
    if r.inOut !in p.ios {
      IndexOfDistinct(q.ios, |p.ios|);
      if io in p.ios {
        var i := IndexOf(p.ios, io);
        IndexOfDistinct(q.ios, i);
        IndexOfDistinct(p.ios, i);
      }
    }
  }

  /** Storing the same record twice is the same as storing it once. */
  lemma StoreIdempotent(p: Progress, r: Record)
    requires Aligned(p)
    ensures Store(Store(p, r), r) == Store(p, r)
  {
    var q := Store(p, r);
    if r.inOut !in p.ios {
      IndexOfDistinct(q.ios, |p.ios|);
    }
  }

  /** Storing several records in turn. */
  function StoreAll(p: Progress, rs: seq<Record>): (q: Progress)
    requires Aligned(p)
    ensures Aligned(q)
    decreases |rs|
  {
    if rs == [] then p else Store(StoreAll(p, rs[..|rs| - 1]), rs[|rs| - 1])
  }

  /** Storing never forgets a processed combination. */
  lemma {:induction false} StoreAllKeeps(p: Progress, rs: seq<Record>, io: Value)
    requires Aligned(p) && io in p.ios
    ensures io in StoreAll(p, rs).ios
    decreases |rs|
  {
    if rs != [] {
      StoreAllKeeps(p, rs[..|rs| - 1], io);
    }
  }

  lemma StoreAllSnoc(p: Progress, rs: seq<Record>, r: Record)
    requires Aligned(p)
    ensures StoreAll(p, rs + [r]) == Store(StoreAll(p, rs), r)
  {
    assert (rs + [r])[..|rs|] == rs;
  }

  /** Every stored record's combination is among the processed ones afterwards. */
  lemma {:induction false} StoreAllStores(p: Progress, rs: seq<Record>, j: nat)
    requires Aligned(p) && j < |rs|
    ensures rs[j].inOut in StoreAll(p, rs).ios
    decreases |rs|
  {
    var n := |rs| - 1;
    var q := StoreAll(p, rs[..n]);
    assert StoreAll(p, rs) == Store(q, rs[n]);
    if j < n {
      assert rs[..n][j] == rs[j];
      StoreAllStores(p, rs[..n], j);
      assert rs[j].inOut in q.ios;
    }
  }

  /** The result of the scheduling loop of `run`: the progress afterwards, the scheduled
      combinations handed to `distribute_scheduled`, in order, and the error that ended the
      loop, if any. */
  datatype RunOutcome = RunOutcome(progress: Progress, dispatched: seq<Value>, failure: Option<Error>)

  /** The loop of `run` over the schedule: a combination already processed is skipped
      unless `overwrite` is set; any other is distributed, and `distribute` gives what that
      does: the records its runner stores, or the error it raises (a missing `in_paths`, an
      unknown run style, a failing runner). The first error ends the loop. */
  function RunLoop(p: Progress, schedule: seq<Value>, overwrite: bool, distribute: Value -> Result<seq<Record>>)
    : (o: RunOutcome)
    requires Aligned(p)
    ensures Aligned(o.progress)
    decreases |schedule|
  {
    if schedule == [] then RunOutcome(p, [], None)
    else
      var io := schedule[|schedule| - 1];
      RunStep(RunLoop(p, schedule[..|schedule| - 1], overwrite, distribute), io, overwrite, distribute(io))
  }

  /** One turn of the loop: skip the combination, or distribute it and store its records;
      a raise stores nothing and ends the loop. */
  function RunStep(prev: RunOutcome, io: Value, overwrite: bool, outcome: Result<seq<Record>>): (o: RunOutcome)
    requires Aligned(prev.progress)
    ensures Aligned(o.progress)
  {
    if prev.failure.Some? then prev
    else if io in prev.progress.ios && !overwrite then prev
    else match outcome
      case Ok(records) => RunOutcome(StoreAll(prev.progress, records), prev.dispatched + [io], None)
      case Err(e) => RunOutcome(prev.progress, prev.dispatched + [io], Some(e))
  }

  lemma RunLoopSnoc(p: Progress, schedule: seq<Value>, io: Value, overwrite: bool, distribute: Value -> Result<seq<Record>>)
    requires Aligned(p)
    ensures RunLoop(p, schedule + [io], overwrite, distribute)
            == RunStep(RunLoop(p, schedule, overwrite, distribute), io, overwrite, distribute(io))
  {
    assert (schedule + [io])[..|schedule|] == schedule;
  }

  /** Once a prefix of the schedule has raised, the rest of the loop changes nothing. */
  lemma {:induction false} RunLoopFailed(p: Progress, schedule: seq<Value>, k: nat, overwrite: bool,
                                         distribute: Value -> Result<seq<Record>>)
    requires Aligned(p) && k <= |schedule| && RunLoop(p, schedule[..k], overwrite, distribute).failure.Some?
    ensures RunLoop(p, schedule, overwrite, distribute) == RunLoop(p, schedule[..k], overwrite, distribute)
    decreases |schedule| - k
  {
    if k < |schedule| {
      RunLoopSnoc(p, schedule[..k], schedule[k], overwrite, distribute);
      TakeSnoc(schedule, k);
      RunLoopFailed(p, schedule, k + 1, overwrite, distribute);
    } else {
      TakeAll(schedule);
    }
  }

  /** A loop that raised raised in the last combination it distributed, with that
      combination's error. */
  lemma {:induction false} RunLoopFailure(p: Progress, schedule: seq<Value>, overwrite: bool,
                                          distribute: Value -> Result<seq<Record>>)
    requires Aligned(p)
    ensures var o := RunLoop(p, schedule, overwrite, distribute);
            o.failure.Some? ==>
              o.dispatched != [] && distribute(o.dispatched[|o.dispatched| - 1]) == Err(o.failure.value)
    decreases |schedule|
  {
    if schedule != [] {
      RunLoopFailure(p, schedule[..|schedule| - 1], overwrite, distribute);
    }
  }

  /** The loop never forgets a processed combination. */
  lemma {:induction false} RunLoopKeeps(p: Progress, schedule: seq<Value>, overwrite: bool,
                                        distribute: Value -> Result<seq<Record>>, io: Value)
    requires Aligned(p) && io in p.ios
    ensures io in RunLoop(p, schedule, overwrite, distribute).progress.ios
    decreases |schedule|
  {
    if schedule != [] {
      var prev := RunLoop(p, schedule[..|schedule| - 1], overwrite, distribute);
      RunLoopKeeps(p, schedule[..|schedule| - 1], overwrite, distribute, io);
      var outcome := distribute(schedule[|schedule| - 1]);
      if outcome.Ok? {
        StoreAllKeeps(prev.progress, outcome.value, io);
      }
    }
  }

  /** Without `overwrite`, nothing already processed when the loop starts is distributed. */
  lemma {:induction false} RunSkipsProcessed(p: Progress, schedule: seq<Value>, distribute: Value -> Result<seq<Record>>,
                                             io: Value)
    requires Aligned(p) && io in p.ios
    ensures io !in RunLoop(p, schedule, false, distribute).dispatched
    decreases |schedule|
  {
    if schedule != [] {
      RunSkipsProcessed(p, schedule[..|schedule| - 1], distribute, io);
      RunLoopKeeps(p, schedule[..|schedule| - 1], false, distribute, io);
    }
  }

  /** With `overwrite`, a loop that does not raise distributes every scheduled combination,
      in schedule order. */
  lemma {:induction false} RunOverwriteDispatchesAll(p: Progress, schedule: seq<Value>,
                                                     distribute: Value -> Result<seq<Record>>)
    requires Aligned(p)
    ensures var o := RunLoop(p, schedule, true, distribute);
            o.failure.None? ==> o.dispatched == schedule
    decreases |schedule|
  {
    if schedule != [] {
      RunOverwriteDispatchesAll(p, schedule[..|schedule| - 1], distribute);
      assert schedule[..|schedule| - 1] + [schedule[|schedule| - 1]] == schedule;
    }
  }

  /** When the loop does not raise, every scheduled combination is either distributed or was
      already processed when its turn came, and so is among the processed ones at the end. */
  lemma {:induction false} RunCovers(p: Progress, schedule: seq<Value>, overwrite: bool,
                                     distribute: Value -> Result<seq<Record>>, io: Value)
    requires Aligned(p) && io in schedule
    ensures var o := RunLoop(p, schedule, overwrite, distribute);
            o.failure.None? ==> io in o.dispatched || io in o.progress.ios
    decreases |schedule|
  {
    var init := schedule[..|schedule| - 1];
    var last := schedule[|schedule| - 1];
    var prev := RunLoop(p, init, overwrite, distribute);
    var outcome := distribute(last);
    if io != last {
      assert schedule == init + [last];
      RunCovers(p, init, overwrite, distribute, io);
      if io in prev.progress.ios && outcome.Ok? {
        StoreAllKeeps(prev.progress, outcome.value, io);
      }
    }
  }

  /** `run` fills in a missing `out_path` of a scheduled combination with
      `{"standard": d}`, where `defaultOut` gives `d` (a folder beside the standard input)
      or the error finding the standard input raises (`StopIteration` when every input path
      is empty). A combination without `out_path` needs `in_paths` (`KeyError`), and one
      that is not a dict cannot be indexed (`TypeError`). */
  function WithOutPath(io: Value, defaultOut: Value -> Result<Value>): (r: Result<Value>)
    ensures io.VDict? && "out_path" in Keys(io.entries) ==> r == Ok(io)
    ensures r.Ok? ==> r.value.VDict? && "out_path" in Keys(r.value.entries)
    ensures r.Ok? && io.VDict? && "out_path" !in Keys(io.entries) ==>
              defaultOut(io).Ok?
              && Lookup(r.value.entries, "out_path") == Some(VDict([Entry("standard", defaultOut(io).value)]))
              && forall k :: k != "out_path" ==> Lookup(r.value.entries, k) == Lookup(io.entries, k)
    ensures r.Err? <==> !io.VDict? || ("out_path" !in Keys(io.entries) &&
                                      ("in_paths" !in Keys(io.entries) || defaultOut(io).Err?))
  {
    if !io.VDict? then Err(TypeError)
    else if "out_path" in Keys(io.entries) then Ok(io)
    else if "in_paths" !in Keys(io.entries) then Err(KeyError)
    else match defaultOut(io)
      case Err(e) => Err(e)
      case Ok(d) =>
        PutLookupAll(io.entries, "out_path", VDict([Entry("standard", d)]));
        Ok(VDict(Put(io.entries, "out_path", VDict([Entry("standard", d)]))))
  }

  /** Python's `needle in container` on the `in_paths` of a combination: a dict tests its
      keys, a string its substrings and a list its items; other values raise `TypeError`. */
  function PyIn(needle: string, container: Value): Result<bool> {
    match container
    case VDict(es) => Ok(needle in Keys(es))
    case VStr(s) => Ok(Contains(s, needle))
    case VList(items) => Ok(VStr(needle) in items)
    case _ => Err(TypeError)
  }

  /** Python's `v[0]`: the first character of a string or the first item of a list
      (`IndexError` when empty); a dict has no key `0` (`KeyError`); other values cannot be
      indexed (`TypeError`). */
  function ItemZero(v: Value): Result<Value> {
    match v
    case VStr(s) => if s == [] then Err(IndexError) else Ok(VStr([s[0]]))
    case VList(items) => if items == [] then Err(IndexError) else Ok(items[0])
    case VDict(_) => Err(KeyError)
    case _ => Err(TypeError)
  }

  /** The standard input `run` bases a missing out path on, as written: when `standard_in`
      is in `in_paths`, item `0` of what `extract_standard` gives for `in_paths`, which for a
      path string is its first character; otherwise the first truthy flattened input path
      (`firstTruthy`, which raises `StopIteration` when there is none). */
  function StandardInAsWritten(inPaths: Value, standardIn: string, firstTruthy: Value -> Result<Value>): (r: Result<Value>)
    ensures PyIn(standardIn, inPaths) == Ok(false) ==> r == firstTruthy(inPaths)
    ensures PyIn(standardIn, inPaths) == Ok(true) ==> r == ItemZero(StandardOf(inPaths, standardIn))
    ensures PyIn(standardIn, inPaths).Err? ==> r == Err(TypeError)
  {
    match PyIn(standardIn, inPaths)
    case Err(e) => Err(e)
    case Ok(false) => firstTruthy(inPaths)
    case Ok(true) =>
      match ExtractStandard(standardIn, [Entry("in_paths", inPaths)])
      case Err(e) => Err(e)
      case Ok(standard) => ItemZero(standard)
  }

  /** The standard input `run` evidently means: the standard path itself, or the first one
      when the standard is a list of paths. */
  function StandardIn(inPaths: Value, standardIn: string, firstTruthy: Value -> Result<Value>): (r: Result<Value>)
    ensures PyIn(standardIn, inPaths) == Ok(false) ==> r == firstTruthy(inPaths)
    ensures PyIn(standardIn, inPaths).Err? ==> r == Err(TypeError)
    ensures inPaths.VDict? && Lookup(inPaths.entries, standardIn).Some? ==>
              var standard := Lookup(inPaths.entries, standardIn).value;
              && (standard.VStr? ==> r == Ok(standard))
              && (standard.VList? ==> r == (if standard.items == [] then Err(IndexError) else Ok(standard.items[0])))
    ensures inPaths.VStr? && Contains(inPaths.s, standardIn) ==> r == Ok(inPaths)
  {
    match PyIn(standardIn, inPaths)
    case Err(e) => Err(e)
    case Ok(false) => firstTruthy(inPaths)
    case Ok(true) =>
      match ExtractStandard(standardIn, [Entry("in_paths", inPaths)])
      case Err(e) => Err(e)
      case Ok(standard) => if standard.VList? then ItemZero(standard) else Ok(standard)
  }

  /** The two readings agree whenever the standard is a list of paths, or `standard_in` is
      not among the inputs. */
  lemma StandardInAgrees(inPaths: Value, standardIn: string, firstTruthy: Value -> Result<Value>)
    requires PyIn(standardIn, inPaths) != Ok(true) || StandardOf(inPaths, standardIn).VList?
    ensures StandardInAsWritten(inPaths, standardIn, firstTruthy) == StandardIn(inPaths, standardIn, firstTruthy)
  {
  }

  /** A standard given as a path string: as written, `run` keeps only the string's first
      character, so the out path is built beside `/` instead of beside `/data/in`. */
  lemma StandardInFirstChar(firstTruthy: Value -> Result<Value>)
    ensures var inPaths := VDict([Entry("standard", VStr("/data/in"))]);
            && StandardInAsWritten(inPaths, "standard", firstTruthy) == Ok(VStr("/"))
            && StandardIn(inPaths, "standard", firstTruthy) == Ok(VStr("/data/in"))
  {
    var inPaths := VDict([Entry("standard", VStr("/data/in"))]);
    assert Keys(inPaths.entries) == ["standard"];
    assert Lookup(inPaths.entries, "standard") == Some(VStr("/data/in"));
  }

  /** The `in_paths` of a combination, `None` when it has none. */
  function InPathsOf(io: Value): Value {
    if io.VDict? then Lookup(io.entries, "in_paths").GetOr(VNone) else VNone
  }

  /** The default out path of `run`: `locate` stands for
      `abspath(join(get_directory(p), "..", out_folder))` on the chosen standard input `p`,
      which reads the file system and the working directory. */
  function DefaultOut(standardIn: string, firstTruthy: Value -> Result<Value>, locate: Value -> Result<Value>): (f: Value -> Result<Value>)
    ensures forall io :: StandardIn(InPathsOf(io), standardIn, firstTruthy).Err? ==>
                           f(io) == Err(StandardIn(InPathsOf(io), standardIn, firstTruthy).error)
    ensures forall io :: StandardIn(InPathsOf(io), standardIn, firstTruthy).Ok? ==>
                           f(io) == locate(StandardIn(InPathsOf(io), standardIn, firstTruthy).value)
  {
    io => match StandardIn(InPathsOf(io), standardIn, firstTruthy)
          case Err(e) => Err(e)
          case Ok(p) => locate(p)
  }

  /** The step the fill loop of `run` takes on each scheduled combination. */
  function OutPathFiller(defaultOut: Value -> Result<Value>): (fill: Value -> Result<Value>)
    ensures forall io :: fill(io) == WithOutPath(io, defaultOut)
  {
    io => WithOutPath(io, defaultOut)
  }

  /** One more turn of the fill loop after a prefix that filled. */
  lemma FillSnoc(schedule: seq<Value>, k: nat, fill: Value -> Result<Value>)
    requires k < |schedule| && FillOutPaths(schedule[..k], fill).Filled?
    ensures var done := FillOutPaths(schedule[..k], fill).schedule;
            FillOutPaths(schedule[..k + 1], fill) ==
              match fill(schedule[k])
              case Ok(v) => Filled(done + [v])
              case Err(e) => FillFailed(done + [schedule[k]], k, e)
  {
    TakeSnoc(schedule, k);
  }

  /** Once a prefix of the schedule has failed to fill, the rest is left as it was. */
  lemma {:induction false} FillFailedRest(schedule: seq<Value>, n: nat, fill: Value -> Result<Value>)
    requires n <= |schedule| && FillOutPaths(schedule[..n], fill).FillFailed?
    ensures var f := FillOutPaths(schedule[..n], fill);
            FillOutPaths(schedule, fill) == FillFailed(f.schedule + schedule[n..], f.at, f.error)
    decreases |schedule| - n
  {
    var f := FillOutPaths(schedule[..n], fill);
    if n < |schedule| {
      TakeSnoc(schedule, n);
      assert schedule[..n + 1][..n] == schedule[..n];
      assert FillOutPaths(schedule[..n + 1], fill) == FillFailed(f.schedule + [schedule[n]], f.at, f.error);
      FillFailedRest(schedule, n + 1, fill);
      assert f.schedule + [schedule[n]] + schedule[n + 1..] == f.schedule + schedule[n..];
    } else {
      TakeAll(schedule);
    }
  }

  lemma PutLookupAll(es: seq<Entry>, key: string, value: Value)
    ensures forall k :: Lookup(Put(es, key, value), k) == if k == key then Some(value) else Lookup(es, k)
  {
    forall k ensures Lookup(Put(es, key, value), k) == if k == key then Some(value) else Lookup(es, k) {
      PutLookup(es, key, value, k);
    }
  }

  /** The fill loop's outcome: every combination filled, or the combinations before
      position `at` filled and the rest as they were, with the error raised at `at`. */
  datatype FillOutcome = Filled(schedule: seq<Value>) | FillFailed(schedule: seq<Value>, at: nat, error: Error)

  /** The loop of `run` that fills in missing out paths, updating each combination in place;
      `fill` is the step taken on each combination (`OutPathFiller`). */
  function FillOutPaths(schedule: seq<Value>, fill: Value -> Result<Value>): (r: FillOutcome)
    ensures |r.schedule| == |schedule|
    ensures r.FillFailed? ==> r.at < |schedule|
    decreases |schedule|
  {
    if schedule == [] then Filled([])
    else
      var init := schedule[..|schedule| - 1];
      var last := schedule[|schedule| - 1];
      match FillOutPaths(init, fill)
      case FillFailed(filled, at, e) => FillFailed(filled + [last], at, e)
      case Filled(filled) =>
        match fill(last)
        case Ok(v) => Filled(filled + [v])
        case Err(e) => FillFailed(filled + [last], |init|, e)
  }

  /** A fill loop that succeeds fills in every combination. */
  lemma {:induction false} FillOutPathsFilled(schedule: seq<Value>, fill: Value -> Result<Value>)
    ensures var r := FillOutPaths(schedule, fill);
            r.Filled? ==> forall i :: 0 <= i < |schedule| ==> fill(schedule[i]) == Ok(r.schedule[i])
    decreases |schedule|
  {
    var r := FillOutPaths(schedule, fill);
    if schedule != [] && r.Filled? {
      var init := schedule[..|schedule| - 1];
      FillOutPathsFilled(init, fill);
      var filled := FillOutPaths(init, fill).schedule;
      forall i | 0 <= i < |init|
        ensures fill(schedule[i]) == Ok(r.schedule[i])
      {
        assert schedule[i] == init[i] && r.schedule[i] == filled[i];
      }
    }
  }

  /** A fill loop that raises has filled the combinations before the failing one and
      left the rest as they were. */
  lemma {:induction false} FillOutPathsFailed(schedule: seq<Value>, fill: Value -> Result<Value>)
    ensures var r := FillOutPaths(schedule, fill);
            r.FillFailed? ==>
              && fill(schedule[r.at]) == Err(r.error)
              && (forall i :: 0 <= i < r.at ==> fill(schedule[i]) == Ok(r.schedule[i]))
              && (forall i :: r.at <= i < |schedule| ==> r.schedule[i] == schedule[i])
    decreases |schedule|
  {
    var r := FillOutPaths(schedule, fill);
    if schedule != [] && r.FillFailed? {
      var init := schedule[..|schedule| - 1];
      var last := schedule[|schedule| - 1];
      var p := FillOutPaths(init, fill);
      assert r.schedule == p.schedule + [last];
      if p.FillFailed? {
        FillOutPathsFailed(init, fill);
        assert r.at == p.at && schedule[r.at] == init[p.at];
      } else {
        FillOutPathsFilled(init, fill);
        assert r.at == |init|;
      }
      forall i | 0 <= i < r.at
        ensures fill(schedule[i]) == Ok(r.schedule[i])
      {
        assert schedule[i] == init[i] && r.schedule[i] == p.schedule[i];
      }
      forall i | r.at <= i < |schedule|
        ensures r.schedule[i] == schedule[i]
      {
        if i < |init| {
          assert schedule[i] == init[i] && r.schedule[i] == p.schedule[i];
        }
      }
    }
  }

  /** The value `extract_standard` takes from one argument: a dict's entry under the key
      (the dict itself when it has none), and any other value itself. */
  function StandardOf(v: Value, standardValue: string): Value {
    if v.VDict? then Lookup(v.entries, standardValue).GetOr(v) else v
  }

  /** `extract_standard(standard_value, **kwargs)`: no arguments raise `ValueError`, one gives
      its standard value, more give the list of them in argument order. */
  function ExtractStandard(standardValue: string, kwargs: seq<Entry>): (r: Result<Value>)
    ensures r.Err? <==> |kwargs| == 0
    ensures r.Err? ==> r.error == ValueError
    ensures |kwargs| == 1 ==> r == Ok(StandardOf(kwargs[0].value, standardValue))
    ensures |kwargs| > 1 ==> r.Ok? && r.value.VList? && |r.value.items| == |kwargs|
                              && forall i :: 0 <= i < |kwargs| ==>
                                   r.value.items[i] == StandardOf(kwargs[i].value, standardValue)
  {
    var standards := seq(|kwargs|, i requires 0 <= i < |kwargs| => StandardOf(kwargs[i].value, standardValue));
    if |kwargs| == 0 then Err(ValueError)
    else if |kwargs| == 1 then Ok(standards[0])
    else Ok(VList(standards))
  }

  /** The dict `{key: dictionary[key] if key in dictionary else None for key in keys}`. */
  function Optionals(dictionary: seq<Entry>, keys: seq<string>): (o: seq<Entry>)
    decreases |keys|
  {
    if keys == [] then []
    else
      var init := keys[..|keys| - 1];
      var key := keys[|keys| - 1];
      Put(Optionals(dictionary, init), key, Lookup(dictionary, key).GetOr(VNone))
  }

  function Values(es: seq<Entry>): (vs: seq<Value>)
    ensures |vs| == |es| && forall i :: 0 <= i < |es| ==> vs[i] == es[i].value
  {
    seq(|es|, i requires 0 <= i < |es| => es[i].value)
  }

  /** `extract_optional(dictionary, keys, return_dict)`: no keys raise `ValueError`; otherwise
      the optionals dict, its only value, or the list of its values. */
  function ExtractOptional(dictionary: seq<Entry>, keys: seq<string>, returnDict: bool): (r: Result<Value>)
    ensures r.Err? <==> keys == []
    ensures r.Err? ==> r.error == ValueError
    ensures r.Ok? && returnDict ==>
              r.value.VDict? &&
              forall k :: Lookup(r.value.entries, k) ==
                            if k in keys then Some(Lookup(dictionary, k).GetOr(VNone)) else None
    ensures r.Ok? && !returnDict && |keys| == 1 ==> r.value == Lookup(dictionary, keys[0]).GetOr(VNone)
    ensures r.Ok? && !returnDict && |keys| > 1 ==> r.value == VList(Values(Optionals(dictionary, keys)))
  {
    var optionals := Optionals(dictionary, keys);
    if keys == [] then Err(ValueError)
    else if returnDict then
      OptionalsLookupAll(dictionary, keys);
      Ok(VDict(optionals))
    else if |keys| == 1 then
      assert keys[..|keys| - 1] == [];
      assert Optionals(dictionary, []) == [];
      assert Put([], keys[0], Lookup(dictionary, keys[0]).GetOr(VNone))
             == [Entry(keys[0], Lookup(dictionary, keys[0]).GetOr(VNone))];
      assert optionals == [Entry(keys[0], Lookup(dictionary, keys[0]).GetOr(VNone))];
      Ok(Values(optionals)[0])
    else Ok(VList(Values(optionals)))
  }

  lemma OptionalsLookupAll(dictionary: seq<Entry>, keys: seq<string>)
    ensures forall k :: Lookup(Optionals(dictionary, keys), k) ==
                          if k in keys then Some(Lookup(dictionary, k).GetOr(VNone)) else None
  {
    forall k
      ensures Lookup(Optionals(dictionary, keys), k) ==
                if k in keys then Some(Lookup(dictionary, k).GetOr(VNone)) else None
    {
      OptionalsLookup(dictionary, keys, k);
    }
  }

  /** The optionals hold the keys in first-occurrence order, each with the dictionary's value
      or `None`. */
  lemma {:induction false} OptionalsLookup(dictionary: seq<Entry>, keys: seq<string>, key: string)
    ensures Lookup(Optionals(dictionary, keys), key) ==
              if key in keys then Some(Lookup(dictionary, key).GetOr(VNone)) else None
    decreases |keys|
  {
    if keys != [] {
      var init := keys[..|keys| - 1];
      var last := keys[|keys| - 1];
      var o := Optionals(dictionary, init);
      var v := Lookup(dictionary, last).GetOr(VNone);
      assert Optionals(dictionary, keys) == Put(o, last, v);
      PutLookup(o, last, v, key);
      if key == last {
        assert keys[|keys| - 1] == key;
      } else {
        OptionalsLookup(dictionary, init, key);
        InSnoc(keys, key);
      }
    } else {
      assert Optionals(dictionary, keys) == [];
    }
  }

  /** With distinct keys, the optionals hold the keys in the order given. */
  lemma {:induction false} OptionalsKeys(dictionary: seq<Entry>, keys: seq<string>)
    requires forall i, j :: 0 <= i < j < |keys| ==> keys[i] != keys[j]
    ensures Keys(Optionals(dictionary, keys)) == keys
    decreases |keys|
  {
    if keys != [] {
      var init := keys[..|keys| - 1];
      var last := keys[|keys| - 1];
      forall i, j | 0 <= i < j < |init| ensures init[i] != init[j] {
        assert init[i] == keys[i] && init[j] == keys[j];
      }
      OptionalsKeys(dictionary, init);
      forall i | 0 <= i < |init| ensures init[i] != last {
        assert init[i] == keys[i];
      }
      var o := Optionals(dictionary, init);
      assert Optionals(dictionary, keys) == Put(o, last, Lookup(dictionary, last).GetOr(VNone));
      assert Keys(o) == init && last !in Keys(o);
      assert init + [last] == keys;
    }
  }

  /** With distinct keys, the list form has one value per key, in key order. */
  lemma OptionalsDistinctKeys(dictionary: seq<Entry>, keys: seq<string>)
    requires forall i, j :: 0 <= i < j < |keys| ==> keys[i] != keys[j]
    ensures |Values(Optionals(dictionary, keys))| == |keys|
    ensures forall i :: 0 <= i < |keys| ==>
              Values(Optionals(dictionary, keys))[i] == Lookup(dictionary, keys[i]).GetOr(VNone)
  {
    var opts := Optionals(dictionary, keys);
    OptionalsKeys(dictionary, keys);
    forall i | 0 <= i < |keys|
      ensures Values(opts)[i] == Lookup(dictionary, keys[i]).GetOr(VNone)
    {
      assert Keys(opts)[i] == opts[i].key;
      LookupAt(opts, i);
      OptionalsLookup(dictionary, keys, keys[i]);
    }
  }

  /** A repeated key collapses: `["a", "a"]` gives a one-element list, not two. */
  lemma ExtractOptionalRepeatedKey(dictionary: seq<Entry>, key: string)
    ensures ExtractOptional(dictionary, [key, key], false) == Ok(VList([Lookup(dictionary, key).GetOr(VNone)]))
  {
    var v := Lookup(dictionary, key).GetOr(VNone);
    assert [key, key][..1] == [key];
    assert [key][..0] == [];
    assert Optionals(dictionary, [key]) == [Entry(key, v)];
    assert Put([Entry(key, v)], key, v) == [Entry(key, v)];
    assert Optionals(dictionary, [key, key]) == [Entry(key, v)];
    assert Values([Entry(key, v)]) == [v];
  }

  /** `fill_dict_standards` as a function of the entries: when the standard key is present,
      every missing replacement key receives the standard value. */
  function FillStandards(es: seq<Entry>, replacementKeys: seq<string>, standardsKey: string): seq<Entry> {
    match Lookup(es, standardsKey)
    case None => es
    case Some(standard) => FillFrom(es, replacementKeys, standard)
  }

  function FillFrom(es: seq<Entry>, keys: seq<string>, standard: Value): seq<Entry>
    decreases |keys|
  {
    if keys == [] then es
    else if keys[0] !in Keys(es) then FillFrom(Put(es, keys[0], standard), keys[1..], standard)
    else FillFrom(es, keys[1..], standard)
  }

  /** The keys filled are exactly the missing replacement keys; present keys keep their
      values. */
  lemma {:induction false} FillFromLookup(es: seq<Entry>, keys: seq<string>, standard: Value, key: string)
    ensures Lookup(FillFrom(es, keys, standard), key) ==
              if key in Keys(es) then Lookup(es, key) else if key in keys then Some(standard) else None
    decreases |keys|
  {
    if keys != [] {
      if keys[0] !in Keys(es) {
        PutLookup(es, keys[0], standard, key);
        FillFromLookup(Put(es, keys[0], standard), keys[1..], standard, key);
      } else {
        FillFromLookup(es, keys[1..], standard, key);
      }
    }
  }

  lemma {:induction false} FillFromNoop(es: seq<Entry>, keys: seq<string>, standard: Value)
    requires forall k :: k in keys ==> k in Keys(es)
    ensures FillFrom(es, keys, standard) == es
    decreases |keys|
  {
    if keys != [] {
      FillFromNoop(es, keys[1..], standard);
    }
  }

  /** With the standard key present, every replacement key ends up present, holding its own
      value if it had one and the standard value otherwise; all other keys are untouched. */
  lemma FillStandardsPresent(es: seq<Entry>, replacementKeys: seq<string>, standardsKey: string, key: string)
    requires standardsKey in Keys(es)
    ensures Lookup(FillStandards(es, replacementKeys, standardsKey), key) ==
              if key in Keys(es) then Lookup(es, key)
              else if key in replacementKeys then Lookup(es, standardsKey)
              else None
  {
    FillFromLookup(es, replacementKeys, Lookup(es, standardsKey).value, key);
  }

  /** Filling twice is filling once. */
  lemma FillStandardsIdempotent(es: seq<Entry>, replacementKeys: seq<string>, standardsKey: string)
    ensures FillStandards(FillStandards(es, replacementKeys, standardsKey), replacementKeys, standardsKey)
            == FillStandards(es, replacementKeys, standardsKey)
  {
    match Lookup(es, standardsKey)
    case None =>
    case Some(standard) =>
      var filled := FillFrom(es, replacementKeys, standard);
      FillFromLookup(es, replacementKeys, standard, standardsKey);
      forall k | k in replacementKeys ensures k in Keys(filled) {
        FillFromLookup(es, replacementKeys, standard, k);
      }
      FillFromNoop(filled, replacementKeys, standard);
  }

  /** The validation of one key in `check_io`: either a callable that must accept the value,
      or anything else, which only asks for the key to be present. */
  datatype Validator = Check(test: Value -> bool) | NoCheck
  datatype KeyRule = KeyRule(key: string, validator: Validator)
  /** The keys one io entry (such as "in" or "out") must carry. */
  datatype IoRule = IoRule(ioKey: string, keyRules: seq<KeyRule>)
  /** One run style and the io entries it needs. */
  datatype RunRule = RunRule(style: string, ioRules: seq<IoRule>)


  /** The entries of a dict value; other values hold no keys here. */
  function SubEntries(v: Value): seq<Entry> {
    if v.VDict? then v.entries else []
  }

  predicate KeyRuleHolds(kr: KeyRule, sub: seq<Entry>) {
    Lookup(sub, kr.key).Some? && (kr.validator.Check? ==> kr.validator.test(Lookup(sub, kr.key).value))
  }

  predicate IoRuleHolds(rule: IoRule, io: seq<Entry>) {
    Lookup(io, rule.ioKey).Some?
    && forall j :: 0 <= j < |rule.keyRules| ==> KeyRuleHolds(rule.keyRules[j], SubEntries(Lookup(io, rule.ioKey).value))
  }

  predicate RunRuleHolds(rule: RunRule, io: seq<Entry>) {
    forall j :: 0 <= j < |rule.ioRules| ==> IoRuleHolds(rule.ioRules[j], io)
  }

  /** The run styles of `rules` whose requirements `io` meets, in order. */
  function ValidStyles(rules: seq<RunRule>, io: seq<Entry>): (styles: seq<string>)
    ensures |styles| <= |rules|
  {
    if rules == [] then []
    else
      var last := rules[|rules| - 1];
      ValidStyles(rules[..|rules| - 1], io) + if RunRuleHolds(last, io) then [last.style] else []
  }

  lemma {:induction false} ValidStylesAppend(a: seq<RunRule>, b: seq<RunRule>, io: seq<Entry>)
    ensures ValidStyles(a + b, io) == ValidStyles(a, io) + ValidStyles(b, io)
    decreases |b|
  {
    if b == [] {
      AppendEmpty(a);
    } else {
      AppendSnoc(a, b);
      ValidStylesAppend(a, b[..|b| - 1], io);
    }
  }

  /** A style is reported exactly when its rule holds. */
  lemma {:induction false} ValidStylesExactly(rules: seq<RunRule>, io: seq<Entry>, style: string)
    ensures style in ValidStyles(rules, io) <==>
              exists i :: 0 <= i < |rules| && rules[i].style == style && RunRuleHolds(rules[i], io)
    decreases |rules|
  {
    if rules != [] {
      var init := rules[..|rules| - 1];
      var last := rules[|rules| - 1];
      ValidStylesExactly(init, io, style);
      if exists i :: 0 <= i < |init| && init[i].style == style && RunRuleHolds(init[i], io) {
        var i :| 0 <= i < |init| && init[i].style == style && RunRuleHolds(init[i], io);
        assert rules[i] == init[i];
      }
      if exists i :: 0 <= i < |rules| && rules[i].style == style && RunRuleHolds(rules[i], io) {
        var i :| 0 <= i < |rules| && rules[i].style == style && RunRuleHolds(rules[i], io);
        if i < |init| {
          assert init[i] == rules[i];
        }
      }
    }
  }

  /** The run rules of all entries of `valid_runs`, in order. */
  function Flatten(runs: seq<seq<RunRule>>): seq<RunRule> {
    if runs == [] then [] else Flatten(runs[..|runs| - 1]) + runs[|runs| - 1]
  }

  /** The inner loops of `check_io` for one run style: every io entry must be present, and
      in it every key present and accepted by its validator. */
  method ComboValid(rule: RunRule, io: seq<Entry>) returns (comboValid: bool)
    ensures comboValid == RunRuleHolds(rule, io)
  {
    comboValid := true;
    var j := 0;
    while j < |rule.ioRules|
      invariant 0 <= j <= |rule.ioRules|
      invariant comboValid
      invariant forall j' :: 0 <= j' < j ==> IoRuleHolds(rule.ioRules[j'], io)
    {
      var ioRule := rule.ioRules[j];
      if Lookup(io, ioRule.ioKey).None? {
        comboValid := false;
        break;
      }
      var sub := SubEntries(Lookup(io, ioRule.ioKey).value);
      var k := 0;
      while k < |ioRule.keyRules|
        invariant 0 <= k <= |ioRule.keyRules|
        invariant comboValid
        invariant forall k' :: 0 <= k' < k ==> KeyRuleHolds(ioRule.keyRules[k'], sub)
      {
        var keyRule := ioRule.keyRules[k];
        if Lookup(sub, keyRule.key).None? {
          comboValid := false;
          break;
        }
        if keyRule.validator.Check? && !keyRule.validator.test(Lookup(sub, keyRule.key).value) {
          comboValid := false;
          break;
        }
        k := k + 1;
      }
      if !comboValid {
        break;
      }
      j := j + 1;
    }
  }

  /** The loop of `check_io` over the run styles of one entry of `valid_runs`. */
  method CheckIoCombos(rules: seq<RunRule>, io: seq<Entry>) returns (styles: seq<string>)
    ensures styles == ValidStyles(rules, io)
  {
    styles := [];
    var j := 0;
    while j < |rules|
      invariant 0 <= j <= |rules|
      invariant styles == ValidStyles(rules[..j], io)
    {
      var comboValid := ComboValid(rules[j], io);
      TakeSnoc(rules, j);
      if comboValid {
        styles := styles + [rules[j].style];
      }
      j := j + 1;
    }
    TakeAll(rules);
  }

  /** The run style `distribute_scheduled` hands a combination to. */
  datatype RunStyle = Nested | Directory | Single

  /** The runner choice of `distribute_scheduled`: a truthy `correct_runner` (the schedule's
      `run_style`) decides; otherwise nested steps run nested, a directory input runs as a
      directory, anything else single. A runner name matching no style raises `ValueError`
      (through `logger.error`). */
  function ChooseRunner(correctRunner: Value, nested: bool, standardInIsDir: bool): (r: Result<RunStyle>)
    ensures !Truthy(correctRunner) ==>
              r == Ok(if nested then Nested else if standardInIsDir then Directory else Single)
    ensures Truthy(correctRunner) ==>
              (r.Ok? <==> correctRunner in {VStr("nested"), VStr("directory"), VStr("single")})
    ensures r.Err? ==> r.error == ValueError
    ensures r == Ok(Nested) ==> correctRunner == VStr("nested") || (!Truthy(correctRunner) && nested)
  {
    var runner :=
      if Truthy(correctRunner) then correctRunner
      else if nested then VStr("nested")
      else if standardInIsDir then VStr("directory")
      else VStr("single");
    if runner == VStr("nested") then Ok(Nested)
    else if runner == VStr("directory") then Ok(Directory)
    else if runner == VStr("single") then Ok(Single)
    else Err(ValueError)
  }

  /** The standard key `distribute_scheduled` uses: for a runner with `data_ids` and the
      default "standard", the first id listed under "standard". */
  function StandardKey(dataIdsStandard: Option<seq<string>>, standardValue: string): (r: Result<string>)
    ensures dataIdsStandard.None? || standardValue != "standard" ==> r == Ok(standardValue)
    ensures dataIdsStandard.Some? && standardValue == "standard" ==>
              (r.Err? <==> dataIdsStandard.value == []) &&
              (r.Err? ==> r.error == IndexError) &&
              (r.Ok? ==> r.value == dataIdsStandard.value[0])
  {
    match dataIdsStandard
    case Some(ids) =>
      if standardValue != "standard" then Ok(standardValue)
      else if ids == [] then Err(IndexError)
      else Ok(ids[0])
    case None => Ok(standardValue)
  }

  /** What `os.stat` accepts: a path string, or an integer (a `bool` among them) taken as a
      file descriptor. Instances are taken as not path-like. */
  predicate PathLike(v: Value) {
    v.VStr? || v.VInt? || v.VBool?
  }

  predicate NotPathLike(v: Value) {
    !PathLike(v)
  }

  /** `os.path.isdir(v)`: a path-like value is looked up, and a failed lookup reads as "not a
      directory" (`isDir` says which lookups find one); any other value makes `os.stat` raise
      `TypeError`, which `isdir` does not catch. */
  function IsDir(v: Value, isDir: Value -> bool): (r: Result<bool>)
    ensures r.Ok? <==> PathLike(v)
    ensures r.Err? ==> r.error == TypeError
    ensures r.Ok? ==> r.value == isDir(v)
  {
    if PathLike(v) then Ok(isDir(v)) else Err(TypeError)
  }

  /** The full choice for one scheduled combination: its "in_paths" must be present
      (`KeyError` otherwise, even when a run style is given), the standard input is taken
      from them, and the runner is chosen; without a run style a flat step asks
      `os.path.isdir` of the standard input, which raises `TypeError` when that is not a
      path (a list of paths, a dict, `None`). */
  function RunnerFor(scheduledIo: seq<Entry>, standardKey: string, nested: bool, isDir: Value -> bool): (r: Result<RunStyle>)
    ensures "in_paths" !in Keys(scheduledIo) ==> r == Err(KeyError)
    ensures r.Err? ==> r.error in {KeyError, ValueError, TypeError}
    ensures "in_paths" in Keys(scheduledIo) && !Truthy(Lookup(scheduledIo, "run_style").GetOr(VNone)) ==>
              var standardIn := StandardOf(Lookup(scheduledIo, "in_paths").value, standardKey);
              && (r == Ok(Nested) <==> nested)
              && (r == Ok(Directory) <==> !nested && PathLike(standardIn) && isDir(standardIn))
              && (r == Ok(Single) <==> !nested && PathLike(standardIn) && !isDir(standardIn))
              && (r == Err(TypeError) <==> !nested && !PathLike(standardIn))
    ensures "in_paths" in Keys(scheduledIo) && Truthy(Lookup(scheduledIo, "run_style").GetOr(VNone)) ==>
              (r == Ok(Nested) <==> Lookup(scheduledIo, "run_style").value == VStr("nested")) &&
              (r == Ok(Directory) <==> Lookup(scheduledIo, "run_style").value == VStr("directory")) &&
              (r == Ok(Single) <==> Lookup(scheduledIo, "run_style").value == VStr("single")) &&
              (r.Err? ==> r.error == ValueError)
  {
    match Lookup(scheduledIo, "in_paths")
    case None => Err(KeyError)
    case Some(inPaths) =>
      var standardIn := StandardOf(inPaths, standardKey);
      var correctRunner := Lookup(scheduledIo, "run_style").GetOr(VNone);
      if Truthy(correctRunner) || nested then ChooseRunner(correctRunner, nested, false)
      else match IsDir(standardIn, isDir)
        case Err(e) => Err(e)
        case Ok(d) => ChooseRunner(correctRunner, nested, d)
  }

  /** One keyword argument as `link_additional_args` renders it. */
  function Flag(key: string, value: string): string {
    "--" + key + " \"" + value + "\""
  }

  function Flags(kwargs: seq<(string, string)>): (fs: seq<string>)
    ensures |fs| == |kwargs| && forall i :: 0 <= i < |kwargs| ==> fs[i] == Flag(kwargs[i].0, kwargs[i].1)
  {
    seq(|kwargs|, i requires 0 <= i < |kwargs| => Flag(kwargs[i].0, kwargs[i].1))
  }

  /** `" ".join(filter(None, parts))`. */
  function JoinNonEmpty(parts: seq<string>): string
    decreases |parts|
  {
    if parts == [] then ""
    else if parts[0] == "" then JoinNonEmpty(parts[1..])
    else
      var rest := JoinNonEmpty(parts[1..]);
      if rest == "" then parts[0] else parts[0] + " " + rest
  }

  lemma JoinNonEmptyPair(a: string, b: string)
    ensures JoinNonEmpty([a, b]) == if a == "" then b else if b == "" then a else a + " " + b
  {
    assert [a, b][1..] == [b];
    assert [b][1..] == [];
    assert JoinNonEmpty([b]) == b;
  }

  /** `link_additional_args(**kwargs)`: the additional arguments (popped from the keyword
      arguments when given there, else the step's own) followed by every other keyword
      argument as `--key "value"`, each group dropped when it renders empty. */
  function LinkAdditionalArgs(stepArgs: seq<string>, popped: Option<seq<string>>, kwargs: seq<(string, string)>): (s: string)
    ensures var args := Join(popped.GetOr(stepArgs), " ");
            var flags := Join(Flags(kwargs), " ");
            s == if args == "" then flags else if flags == "" then args else args + " " + flags
  {
    var args := Join(popped.GetOr(stepArgs), " ");
    var flags := Join(Flags(kwargs), " ");
    JoinNonEmptyPair(args, flags);
    JoinNonEmpty([args, flags])
  }

  /** The first `true` in `works` over the candidates. */
  predicate FirstWorking(candidates: seq<string>, works: string -> bool, k: nat) {
    k < |candidates| && works(candidates[k]) && forall j :: 0 <= j < k ==> !works(candidates[j])
  }

  /** The index of the first candidate from `i` on that passes the check, or the length
      when none does. */
  function FirstWorkingFrom(candidates: seq<string>, works: string -> bool, i: nat): (k: nat)
    requires i <= |candidates|
    ensures i <= k <= |candidates|
    ensures forall j :: i <= j < k ==> !works(candidates[j])
    ensures k < |candidates| ==> works(candidates[k])
    decreases |candidates| - i
  {
    if i == |candidates| || works(candidates[i]) then i else FirstWorkingFrom(candidates, works, i + 1)
  }

  /** The executable `check_execs` settles on: the first candidate that passes the check,
      or `None` when none does. */
  function FirstExec(candidates: seq<string>, works: string -> bool): (r: Option<string>)
    ensures r.None? <==> forall j :: 0 <= j < |candidates| ==> !works(candidates[j])
    ensures r.Some? ==> exists k: nat :: FirstWorking(candidates, works, k) && r.value == candidates[k]
  {
    var k := FirstWorkingFrom(candidates, works, 0);
    if k < |candidates| then
      assert FirstWorking(candidates, works, k);
      Some(candidates[k])
    else None
  }

  predicate Increasing(ps: seq<nat>) {
    forall k, l :: 0 <= k < l < |ps| ==> ps[k] < ps[l]
  }

  /** The write-back of `compute_futures`: the positions whose future is pending, in order. */
  function Pending(futures: seq<Option<Future>>): (ps: seq<nat>)
    ensures forall k :: 0 <= k < |ps| ==> ps[k] < |futures| && futures[ps[k]].Some?
    ensures Increasing(ps)
  {
    if futures == [] then []
    else
      var init := Pending(futures[..|futures| - 1]);
      if futures[|futures| - 1].Some? then init + [|futures| - 1] else init
  }

  /** Every position whose future is pending is listed. */
  lemma {:induction false} PendingComplete(futures: seq<Option<Future>>, i: nat)
    requires i < |futures| && futures[i].Some?
    ensures i in Pending(futures)
  {
    var init := futures[..|futures| - 1];
    if i < |futures| - 1 {
      PendingComplete(init, i);
    }
  }

  /** The progress after the first `n` computed responses are written back, in pending
      order, into the outs, errs and results of their combinations. */
  function WriteBack(p: Progress, pending: seq<nat>, responses: seq<(Value, Value, Value)>, n: nat): (q: Progress)
    requires Aligned(p) && forall k :: 0 <= k < |pending| ==> pending[k] < |p.ios|
    requires n <= |pending| && n <= |responses|
    ensures Aligned(q) && q.ios == p.ios && q.futures == p.futures && q.logPaths == p.logPaths
  {
    if n == 0 then p
    else WriteOne(WriteBack(p, pending, responses, n - 1), pending[n - 1], responses[n - 1])
  }

  /** One response `(results, out, err)` written to position `i`. */
  function WriteOne(p: Progress, i: nat, response: (Value, Value, Value)): (q: Progress)
    requires Aligned(p) && i < |p.ios|
    ensures Aligned(q) && q.ios == p.ios && q.futures == p.futures && q.logPaths == p.logPaths
  {
    p.(outs := p.outs[i := response.1], errs := p.errs[i := response.2], results := p.results[i := response.0])
  }

  function Min(a: nat, b: nat): nat {
    if a < b then a else b
  }

  /** The loop of `compute_futures`: the pending combinations are collected in order, and
      the `k`-th response goes to the position `list.index` finds for the `k`-th of them. */
  method WriteResponses(p: Progress, responses: seq<(Value, Value, Value)>) returns (q: Progress)
    requires Aligned(p)
    ensures var pending := Pending(p.futures);
            q == WriteBack(p, pending, responses, Min(|pending|, |responses|))
  {
    var pending := Pending(p.futures);
    var inOuts := seq(|pending|, k requires 0 <= k < |pending| => p.ios[pending[k]]);
    q := p;
    var k := 0;
    while k < |inOuts| && k < |responses|
      invariant 0 <= k <= |inOuts| && k <= |responses|
      invariant q == WriteBack(p, pending, responses, k)
    {
      var i := IndexOf(q.ios, inOuts[k]);
      IndexOfDistinct(q.ios, pending[k]);
      q := WriteOne(q, i, responses[k]);
      k := k + 1;
    }
    assert k == Min(|pending|, |responses|);
  }

  /** A position whose future is not pending keeps its outs, errs and results. */
  lemma {:induction false} WriteBackLeavesOthers(p: Progress, pending: seq<nat>, responses: seq<(Value, Value, Value)>, n: nat, i: nat)
    requires Aligned(p) && forall k :: 0 <= k < |pending| ==> pending[k] < |p.ios|
    requires n <= |pending| && n <= |responses|
    requires i < |p.ios| && i !in pending
    ensures var q := WriteBack(p, pending, responses, n);
            q.outs[i] == p.outs[i] && q.errs[i] == p.errs[i] && q.results[i] == p.results[i]
  {
    if n > 0 {
      WriteBackLeavesOthers(p, pending, responses, n - 1, i);
    }
  }

  /** The `k`-th pending position receives the `k`-th response: no later response is written
      to the same position, since the pending positions increase. */
  lemma {:induction false} WriteBackWrites(p: Progress, pending: seq<nat>, responses: seq<(Value, Value, Value)>, n: nat, k: nat)
    requires Aligned(p) && forall k :: 0 <= k < |pending| ==> pending[k] < |p.ios|
    requires Increasing(pending)
    requires n <= |pending| && n <= |responses| && k < n
    ensures var q := WriteBack(p, pending, responses, n);
            q.outs[pending[k]] == responses[k].1 && q.errs[pending[k]] == responses[k].2
            && q.results[pending[k]] == responses[k].0
  {
    if k < n - 1 {
      WriteBackWrites(p, pending, responses, n - 1, k);
      assert pending[k] < pending[n - 1];
    }
  }

  /** The record `compute` stores: a command line is run through `execute_verbose_command`
      with `cmd` among the arguments; with more than one worker the call is delayed and the
      record holds `None` until the futures are computed, with one the response's items 0, 1
      and 2 (`None` where missing) are the results, out and err. */
  function ComputeRecord(workers: int, stepFunction: StepFunction, kwargs: seq<Entry>, response: seq<Value>): (r: Record)
    requires workers > 1 || response != []
    ensures r.inOut == Lookup(kwargs, "in_out").GetOr(VNone) && r.logPath == Lookup(kwargs, "log_path").GetOr(VNone)
    ensures workers > 1 ==> r.future.Some? && r.results == VNone && r.out == VNone && r.err == VNone
    ensures workers > 1 && stepFunction.Command? ==>
              r.future.value.call == Callable("execute_verbose_command")
              && Lookup(r.future.value.kwargs, "cmd") == Some(VStr(stepFunction.cmd))
    ensures workers > 1 && !stepFunction.Command? ==> r.future == Some(Delayed(stepFunction, kwargs))
    ensures workers <= 1 ==> r.future.None? && r.results == response[0]
    ensures workers <= 1 ==> r.out == (if |response| > 1 then response[1] else VNone)
                             && r.err == (if |response| > 2 then response[2] else VNone)
  {
    var args := if stepFunction.Command? then Put(kwargs, "cmd", VStr(stepFunction.cmd)) else kwargs;
    var call := if stepFunction.Command? then Callable("execute_verbose_command") else stepFunction;
    var cmd := if stepFunction.Command? then stepFunction.cmd else "";
    PutLookup(kwargs, "cmd", VStr(cmd), "in_out");
    PutLookup(kwargs, "cmd", VStr(cmd), "log_path");
    var resp := if workers > 1 then [VNone, VNone, VNone] else response;
    var future := if workers > 1 then Some(Delayed(call, args)) else None;
    Record(Lookup(args, "in_out").GetOr(VNone), resp[0], future,
           if 1 < |resp| then resp[1] else VNone, if 2 < |resp| then resp[2] else VNone,
           Lookup(args, "log_path").GetOr(VNone))
  }

  /** What one `compute` call leads to: with one worker the step function is called at
      once, which raises `TypeError` for a list and `IndexError` when the response is empty;
      otherwise the record `ComputeRecord` describes is stored. */
  function Invoke(workers: int, stepFunction: StepFunction, kwargs: seq<Entry>, response: seq<Value>): (r: Result<Record>)
    ensures r.Err? <==> workers <= 1 && (stepFunction.Functions? || response == [])
    ensures r.Err? ==> r.error == if stepFunction.Functions? then TypeError else IndexError
    ensures r.Ok? ==> r.value == ComputeRecord(workers, stepFunction, kwargs, response)
  {
    if workers <= 1 && stepFunction.Functions? then Err(TypeError)
    else if workers <= 1 && response == [] then Err(IndexError)
    else Ok(ComputeRecord(workers, stepFunction, kwargs, response))
  }

  /** A pipeline step's scheduling state and progress. */
  class PipeStep {
    var overwrite: bool
    var nested: bool
    var workers: int
    var validRuns: seq<seq<RunRule>>
    var commonExecs: seq<string>
    var additionalArgs: seq<string>
    var scheduledIos: seq<Value>
    var processedIos: seq<Value>
    var logPaths: seq<Value>
    var outs: seq<Value>
    var errs: seq<Value>
    var results: seq<Value>
    var futures: seq<Option<Future>>

    function State(): Progress
      reads this
    {
      Progress(processedIos, logPaths, outs, errs, results, futures)
    }

    predicate Valid()
      reads this
    {
      Aligned(State())
    }

    constructor (overwrite: bool, nested: bool, workers: int, validRuns: seq<seq<RunRule>>, additionalArgs: seq<string>)
      ensures Valid() && State() == NoProgress && scheduledIos == [] && commonExecs == []
      ensures this.overwrite == overwrite && this.nested == nested && this.workers == workers
      ensures this.validRuns == validRuns && this.additionalArgs == additionalArgs
    {
      this.overwrite := overwrite;
      this.nested := nested;
      this.workers := workers;
      this.validRuns := validRuns;
      this.additionalArgs := additionalArgs;
      commonExecs := [];
      scheduledIos := [];
      processedIos := [];
      logPaths := [];
      outs := [];
      errs := [];
      results := [];
      futures := [];
    }

    /** `store_progress`. */
    method StoreProgress(r: Record)
      requires Valid()
      modifies this`processedIos, this`logPaths, this`outs, this`errs, this`results, this`futures
      ensures Valid() && State() == Store(old(State()), r)
    {
      if r.inOut in processedIos {
        var i := IndexOf(processedIos, r.inOut);
        logPaths := logPaths[i := r.logPath];
        outs := outs[i := r.out];
        errs := errs[i := r.err];
        results := results[i := r.results];
        futures := futures[i := r.future];
      } else {
        processedIos := processedIos + [r.inOut];
        outs := outs + [r.out];
        errs := errs + [r.err];
        logPaths := logPaths + [r.logPath];
        results := results + [r.results];
        futures := futures + [r.future];
      }
    }

    /** `reset_progress`. */
    method ResetProgress()
      modifies this`processedIos, this`logPaths, this`outs, this`errs, this`results, this`futures
      ensures Valid() && State() == NoProgress
    {
      processedIos := [];
      logPaths := [];
      outs := [];
      errs := [];
      results := [];
      futures := [];
    }

    /** `compute(step_function, **kwargs)`. A command line is run through
        `execute_verbose_command` with `cmd` added to the arguments. With one worker the call
        is made at once and `response` is what it returned; with more it is delayed, and the
        response is `[None, None, None]` until the futures are computed. Calling a list of
        step functions at once raises `TypeError`, and an empty response `IndexError`;
        otherwise the response's items 0, 1 and 2 (or `None`) are stored as results, out and
        err for the `in_out` argument. */
    method Compute(stepFunction: StepFunction, kwargs: seq<Entry>, response: seq<Value>) returns (r: Result<()>)
      requires Valid()
      modifies this`processedIos, this`logPaths, this`outs, this`errs, this`results, this`futures
      ensures Valid()
      ensures r.Err? <==> workers <= 1 && (stepFunction.Functions? || response == [])
      ensures r.Err? ==> r.error == (if stepFunction.Functions? then TypeError else IndexError) && State() == old(State())
      ensures r.Ok? ==> State() == Store(old(State()), ComputeRecord(workers, stepFunction, kwargs, response))
    {
      if workers <= 1 && stepFunction.Functions? {
        return Err(TypeError);
      }
      var args := kwargs;
      var call := stepFunction;
      if stepFunction.Command? {
        args := Put(args, "cmd", VStr(stepFunction.cmd));
        call := Callable("execute_verbose_command");
      }
      var resp: seq<Value>;
      var future: Option<Future>;
      if workers > 1 {
        resp := [VNone, VNone, VNone];
        future := Some(Delayed(call, args));
      } else {
        resp := response;
        future := None;
      }
      if resp == [] {
        return Err(IndexError);
      }
      var out := if 1 < |resp| then resp[1] else VNone;
      var err := if 2 < |resp| then resp[2] else VNone;
      StoreProgress(Record(Lookup(args, "in_out").GetOr(VNone), resp[0], future, out, err,
                           Lookup(args, "log_path").GetOr(VNone)));
      r := Ok(());
    }

    /** `compute_futures`, given the responses the scheduler computed for the pending futures
        in order: each is written back to the combination its future belongs to. The futures
        themselves stay. */
    method ComputeFutures(responses: seq<(Value, Value, Value)>)
      requires Valid()
      modifies this`outs, this`errs, this`results
      ensures Valid()
      ensures var pending := Pending(old(futures));
              State() == WriteBack(old(State()), pending, responses, Min(|pending|, |responses|))
    {
      var p := WriteResponses(State(), responses);
      outs, errs, results := p.outs, p.errs, p.results;
    }

    /** `check_execs(exec_path)`: the first of the given path and the step's common
        executables that passes the check, or `None`. */
    method CheckExecs(execPath: string, works: string -> bool) returns (validExec: Option<string>)
      ensures validExec == FirstExec([execPath] + commonExecs, works)
      ensures validExec.Some? ==> exists k: nat :: FirstWorking([execPath] + commonExecs, works, k)
                                              && validExec.value == ([execPath] + commonExecs)[k]
      ensures validExec.None? ==> forall c :: c in [execPath] + commonExecs ==> !works(c)
    {
      var candidates := [execPath] + commonExecs;
      var k := 0;
      while k < |candidates| && !works(candidates[k])
        invariant 0 <= k <= |candidates|
        invariant forall j :: 0 <= j < k ==> !works(candidates[j])
        invariant FirstWorkingFrom(candidates, works, k) == FirstWorkingFrom(candidates, works, 0)
      {
        k := k + 1;
      }
      validExec := if k < |candidates| then Some(candidates[k]) else None;
    }

    /** `check_io(io, valid_runs)`: the run styles, in `valid_runs` order, whose requirements
        `io` meets; an empty `valid_runs` falls back to the step's own. */
    method CheckIo(io: seq<Entry>, validRunsArg: seq<seq<RunRule>>) returns (validRunStyles: seq<string>)
      ensures validRunStyles == ValidStyles(Flatten(if validRunsArg != [] then validRunsArg else validRuns), io)
    {
      var runs := if validRunsArg != [] then validRunsArg else validRuns;
      validRunStyles := [];
      var i := 0;
      while i < |runs|
        invariant 0 <= i <= |runs|
        invariant validRunStyles == ValidStyles(Flatten(runs[..i]), io)
      {
        var styles := CheckIoCombos(runs[i], io);
        validRunStyles := validRunStyles + styles;
        ValidStylesAppend(Flatten(runs[..i]), runs[i], io);
        TakeSnoc(runs, i);
        i := i + 1;
      }
      TakeAll(runs);
    }

    /** What the runner `distribute_scheduled` reaches does to the progress: it stores the
        given records in turn. */
    method StoreRecords(records: seq<Record>)
      requires Valid()
      modifies this`processedIos, this`logPaths, this`outs, this`errs, this`results, this`futures
      ensures Valid() && State() == StoreAll(old(State()), records)
    {
      var n := 0;
      while n < |records|
        invariant 0 <= n <= |records|
        invariant Valid() && State() == StoreAll(old(State()), records[..n])
      {
        TakeSnoc(records, n);
        StoreProgress(records[n]);
        n := n + 1;
      }
      TakeAll(records);
    }

    /** One turn of the loop in `run`: a combination already processed is skipped unless the
        step overwrites; any other is distributed, and its records are stored or its error
        is raised. */
    method Visit(scheduledIo: Value, outcome: Result<seq<Record>>) returns (sent: bool, failure: Option<Error>)
      requires Valid()
      modifies this`processedIos, this`logPaths, this`outs, this`errs, this`results, this`futures
      ensures Valid() && sent == !(scheduledIo in old(processedIos) && !overwrite)
      ensures failure == if sent && outcome.Err? then Some(outcome.error) else None
      ensures State() == if sent && outcome.Ok? then StoreAll(old(State()), outcome.value) else old(State())
    {
      sent := !(scheduledIo in processedIos && !overwrite);
      failure := None;
      if sent {
        match outcome
        case Ok(records) => StoreRecords(records);
        case Err(e) => failure := Some(e);
      }
    }

    /** The fill loop of `run`: every scheduled combination without an out path gets one, in
        place; the first error stops the loop and leaves the later combinations as they were. */
    method FillMissingOutPaths(defaultOut: Value -> Result<Value>) returns (failure: Option<Error>)
      modifies this`scheduledIos
      ensures var f := FillOutPaths(old(scheduledIos), OutPathFiller(defaultOut));
              scheduledIos == f.schedule && failure == (if f.FillFailed? then Some(f.error) else None)
    {
      var schedule := scheduledIos;
      var done: seq<Value> := [];
      var k := 0;
      while k < |schedule|
        invariant 0 <= k <= |schedule|
        invariant FillOutPaths(schedule[..k], OutPathFiller(defaultOut)) == Filled(done)
      {
        var w := WithOutPath(schedule[k], defaultOut);
        FillSnoc(schedule, k, OutPathFiller(defaultOut));
        if w.Err? {
          FillFailedRest(schedule, k + 1, OutPathFiller(defaultOut));
          scheduledIos := done + [schedule[k]] + schedule[k + 1..];
          return Some(w.error);
        }
        done := done + [w.value];
        k := k + 1;
      }
      TakeAll(schedule);
      scheduledIos := done;
      failure := None;
    }

    /** `run(in_outs)`: the new combinations join the schedule, missing out paths are filled
        in, and the loop distributes every combination not to be skipped; on success the
        schedule is cleared and the processed combinations are returned. An error leaves the
        schedule as it was when the error was raised. `standardIn` is the `standard_in` argument;
        `firstTruthy` stands for `next(filter(None, flatten_values(...)))` and `locate` for the
        out folder beside a path (`DefaultOut`). */
    method Run(inOuts: seq<Value>, standardIn: string, firstTruthy: Value -> Result<Value>, locate: Value -> Result<Value>,
               distribute: Value -> Result<seq<Record>>)
      returns (r: Result<seq<Value>>, ghost dispatched: seq<Value>)
      requires Valid()
      modifies this`scheduledIos, this`processedIos, this`logPaths, this`outs, this`errs, this`results, this`futures
      ensures Valid()
      ensures var fill := FillOutPaths(old(scheduledIos) + inOuts, OutPathFiller(DefaultOut(standardIn, firstTruthy, locate)));
              && (fill.FillFailed? ==>
                    r == Err(fill.error) && scheduledIos == fill.schedule && State() == old(State()) && dispatched == [])
              && (fill.Filled? ==>
                    var o := RunLoop(old(State()), fill.schedule, overwrite, distribute);
                    && State() == o.progress && dispatched == o.dispatched
                    && (o.failure.None? ==> r == Ok(processedIos) && scheduledIos == [])
                    && (o.failure.Some? ==> r == Err(o.failure.value) && scheduledIos == fill.schedule))
    {
      scheduledIos := scheduledIos + inOuts;
      var failure := FillMissingOutPaths(DefaultOut(standardIn, firstTruthy, locate));
      if failure.Some? {
        return Err(failure.value), [];
      }
      failure, dispatched := DistributeAll(scheduledIos, distribute);
      if failure.Some? {
        return Err(failure.value), dispatched;
      }
      scheduledIos := [];
      r := Ok(processedIos);
    }

    /** The loop of `run` over the schedule; it stops at the first error. */
    method DistributeAll(schedule: seq<Value>, distribute: Value -> Result<seq<Record>>)
      returns (failure: Option<Error>, ghost dispatched: seq<Value>)
      requires Valid()
      modifies this`processedIos, this`logPaths, this`outs, this`errs, this`results, this`futures
      ensures Valid() && RunOutcome(State(), dispatched, failure) == RunLoop(old(State()), schedule, overwrite, distribute)
    {
      ghost var start := State();
      dispatched := [];
      failure := None;
      var k := 0;
      while k < |schedule| && failure.None?
        invariant 0 <= k <= |schedule|
        invariant Valid()
        invariant RunOutcome(State(), dispatched, failure) == RunLoop(start, schedule[..k], overwrite, distribute)
      {
        var scheduledIo := schedule[k];
        RunLoopSnoc(start, schedule[..k], scheduledIo, overwrite, distribute);
        TakeSnoc(schedule, k);
        var sent;
        sent, failure := Visit(scheduledIo, distribute(scheduledIo));
        if sent {
          dispatched := dispatched + [scheduledIo];
        }
        k := k + 1;
      }
      if failure.Some? {
        RunLoopFailed(start, schedule, k, overwrite, distribute);
      } else {
        TakeAll(schedule);
      }
    }
  }
}
