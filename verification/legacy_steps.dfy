/** The older `Pipe_Step` of the `source` package: progress kept per input path in five
    parallel lists, merging the progress of other steps, and a `run` that pairs scheduled
    inputs with outputs by position and hands each pair to one of three compute methods. */
module LegacySteps {
  import opened Wrappers
  import opened Text
  import opened StepValues
  import opened Sequences

  /** A scheduled input or output: a path, or a dict whose `"label"` entry names the path
      (`None` when the dict has no such entry). */
  datatype Scheduled = Path(path: string) | Labelled(name: Option<string>)

  /** `p["label"] if isinstance(p, dict) else p`. */
  function LabelOf(s: Scheduled): (r: Result<string>)
    ensures r.Err? <==> s == Labelled(None)
    ensures r.Err? ==> r.error == KeyError
  {
    match s
    case Path(p) => Ok(p)
    case Labelled(name) => if name.Some? then Ok(name.value) else Err(KeyError)
  }

  /** `[os.path.dirname(p) for p in ins]`: a dict has no directory name and raises
      `TypeError`. */
  function Dirnames(ins: seq<Scheduled>): (r: Result<seq<Scheduled>>)
    ensures r.Err? <==> exists i :: 0 <= i < |ins| && ins[i].Labelled?
    ensures r.Err? ==> r.error == TypeError
    ensures r.Ok? ==> |r.value| == |ins| && forall i :: 0 <= i < |ins| ==> r.value[i] == Path(Dirname(ins[i].path))
  {
    if forall i :: 0 <= i < |ins| ==> ins[i].Path? then
      Ok(seq(|ins|, i requires 0 <= i < |ins| => Path(Dirname(ins[i].path))))
    else
      Err(TypeError)
  }

  /** The outputs `run` pairs with the inputs: the scheduled outputs, or the inputs'
      directories when there are none, then padded with the last output up to the number
      of inputs. */
  function PadOuts(ins: seq<Scheduled>, outs: seq<Scheduled>): (r: Result<seq<Scheduled>>)
    ensures r.Err? <==> outs == [] && exists i :: 0 <= i < |ins| && ins[i].Labelled?
    ensures r.Ok? ==> |r.value| >= |ins|
    ensures r.Ok? && outs == [] ==> r == Dirnames(ins)
    ensures r.Ok? && outs != [] ==>
              |r.value| == Max(|ins|, |outs|) && r.value[..|outs|] == outs
              && forall i :: |outs| <= i < |r.value| ==> r.value[i] == outs[|outs| - 1]
  {
    var base := if outs != [] then Ok(outs) else Dirnames(ins);
    if base.Err? then base
    else if |ins| > |base.value| then
      var last := base.value[|base.value| - 1];
      Ok(base.value + seq(|ins| - |base.value|, _ => last))
    else base
  }

  function Max(a: nat, b: nat): nat {
    if a < b then b else a
  }

  /** `zip(ins, outs)`: pairs up to the shorter of the two. */
  function Zip(ins: seq<Scheduled>, outs: seq<Scheduled>): (pairs: seq<(Scheduled, Scheduled)>)
    ensures |pairs| <= |ins| && |pairs| <= |outs|
    ensures |outs| >= |ins| ==> |pairs| == |ins|
    ensures forall i :: 0 <= i < |pairs| ==> pairs[i] == (ins[i], outs[i])
  {
    var n := if |ins| < |outs| then |ins| else |outs|;
    seq(n, i requires 0 <= i < n => (ins[i], outs[i]))
  }

  /** The value a keyword argument takes in the `i`-th turn of the loop, where the list
      lengths are compared with `count`. */
  function ArgValue(value: Value, count: nat, i: nat): Value
    requires i < count
  {
    if value.VList? && |value.items| == count then value.items[i] else value
  }

  /** The keyword arguments of the `i`-th pair: a list with one element per scheduled input
      passes its `i`-th element, any other value is passed whole. */
  function ArgsAt(kwargs: seq<Entry>, count: nat, i: nat): (args: seq<Entry>)
    requires i < count
    ensures Keys(args) == Keys(kwargs)
  {
    seq(|kwargs|, k requires 0 <= k < |kwargs| => Entry(kwargs[k].key, ArgValue(kwargs[k].value, count, i)))
  }

  /** The same loop as the source writes it: the list lengths are compared with the number
      of paths passed to this `run` (`inPathsCount`), while `i` counts every scheduled
      pair, including ones scheduled before. A list of that length is then indexed past
      its end. */
  function ArgsAtAsWritten(kwargs: seq<Entry>, inPathsCount: nat, i: nat): (r: Result<seq<Entry>>)
    ensures r.Ok? ==> Keys(r.value) == Keys(kwargs)
    ensures r.Err? ==> r.error == IndexError
  {
    if kwargs == [] then Ok([])
    else
      var value := kwargs[0].value;
      var rest := ArgsAtAsWritten(kwargs[1..], inPathsCount, i);
      if value.VList? && |value.items| == inPathsCount then
        if i < |value.items| then
          if rest.Err? then rest
          else KeysCons(Entry(kwargs[0].key, value.items[i]), rest.value); Ok([Entry(kwargs[0].key, value.items[i])] + rest.value)
        else Err(IndexError)
      else if rest.Err? then rest
      else KeysCons(kwargs[0], rest.value); Ok([kwargs[0]] + rest.value)
  }

  /** When nothing was scheduled before the call, the counts agree and the written loop
      passes exactly what the corrected one does. */
  lemma {:induction false} ArgsAtAgrees(kwargs: seq<Entry>, count: nat, i: nat)
    requires i < count
    ensures ArgsAtAsWritten(kwargs, count, i) == Ok(ArgsAt(kwargs, count, i))
  {
    if kwargs != [] {
      ArgsAtAgrees(kwargs[1..], count, i);
      assert ArgsAt(kwargs, count, i) == [ArgsAt(kwargs, count, i)[0]] + ArgsAt(kwargs[1..], count, i);
    }
  }

  /** One input `a` left on the schedule, then `run(in_paths=[b], k=[x])`: the list `k`
      matches the one new path, the pair of `b` is the second turn, and `k[1]` raises
      `IndexError`; the corrected loop passes the list whole, as its length is not the
      number of scheduled inputs. */
  lemma ArgsAtPreScheduled()
    ensures ArgsAtAsWritten([Entry("k", VList([VStr("x")]))], 1, 1) == Err(IndexError)
    ensures ArgsAt([Entry("k", VList([VStr("x")]))], 2, 1) == [Entry("k", VList([VStr("x")]))]
  {
    var args := ArgsAt([Entry("k", VList([VStr("x")]))], 2, 1);
    assert args[0] == Entry("k", VList([VStr("x")]));
  }

  /** The method `run` activates for a pair. */
  datatype Call =
    | ComputeNested(inRootDir: string, outRootDir: string)
    | ComputeDirectory(inPath: string, outPath: string, args: seq<Entry>)
    | Compute(inPath: string, outPath: string, args: seq<Entry>)

  /** The input path a call works on. */
  function CallIn(c: Call): string {
    if c.ComputeNested? then c.inRootDir else c.inPath
  }

  /** `compute_nested` for a nested step, else `compute_directory` for a directory input,
      else `compute`; the nested call gets no further arguments. */
  function Dispatch(nested: bool, inIsDir: bool, inPath: string, outPath: string, args: seq<Entry>): (c: Call)
    ensures CallIn(c) == inPath
  {
    if nested then ComputeNested(inPath, outPath)
    else if inIsDir then ComputeDirectory(inPath, outPath, args)
    else Compute(inPath, outPath, args)
  }

  /** The call `run` makes for a pair is the one its configuration and input pick. */
  predicate Picked(c: Call, nested: bool, isDir: string -> bool) {
    (c.ComputeNested? <==> nested) && (!nested ==> (c.ComputeDirectory? <==> isDir(c.inPath)))
  }

  /** One call of `store_progress(in_path, out_path, out, err, log_path)`. */
  datatype LegacyRecord = LegacyRecord(inPath: string, outPath: string, out: string, err: string, logPath: string)

  /** The five parallel progress lists. */
  datatype LegacyProgress = LegacyProgress(
    ins: seq<string>, outPaths: seq<string>, outs: seq<string>, errs: seq<string>, logPaths: seq<string>)

  predicate Aligned(p: LegacyProgress) {
    |p.outPaths| == |p.ins| && |p.outs| == |p.ins| && |p.errs| == |p.ins| && |p.logPaths| == |p.ins|
  }

  /** The record of position `i`. */
  function RecordAt(p: LegacyProgress, i: nat): LegacyRecord
    requires Aligned(p) && i < |p.ins|
  {
    LegacyRecord(p.ins[i], p.outPaths[i], p.outs[i], p.errs[i], p.logPaths[i])
  }

  /** `store_progress`: an input already processed has the entries at its first position
      overwritten; any other is appended to all five lists. */
  function Store(p: LegacyProgress, r: LegacyRecord): (q: LegacyProgress)
    requires Aligned(p)
    ensures Aligned(q)
  {
    if r.inPath in p.ins then
      var i := IndexOf(p.ins, r.inPath);
      p.(outPaths := p.outPaths[i := r.outPath], outs := p.outs[i := r.out], errs := p.errs[i := r.err],
         logPaths := p.logPaths[i := r.logPath])
    else
      LegacyProgress(p.ins + [r.inPath], p.outPaths + [r.outPath], p.outs + [r.out], p.errs + [r.err],
                     p.logPaths + [r.logPath])
  }

  /** After storing, the input's first position holds the record; every other position
      keeps its record; the lists grow by one entry exactly when the input is new. */
  lemma StoreSpec(p: LegacyProgress, r: LegacyRecord)
    requires Aligned(p)
    ensures var q := Store(p, r);
            && r.inPath in q.ins
            && RecordAt(q, IndexOf(q.ins, r.inPath)) == r
            && |q.ins| == (if r.inPath in p.ins then |p.ins| else |p.ins| + 1)
            && forall j :: 0 <= j < |p.ins| && j != IndexOf(q.ins, r.inPath) ==> RecordAt(q, j) == RecordAt(p, j)
  {
    var q := Store(p, r);
    if r.inPath !in p.ins {
      assert q.ins[..|p.ins|] == p.ins;
      assert IndexOf(q.ins, r.inPath) == |p.ins|;
    }
  }

  /** Storing keeps an input list without repeats free of repeats. */
  lemma StoreDistinct(p: LegacyProgress, r: LegacyRecord)
    requires Aligned(p) && Distinct(p.ins)
    ensures Distinct(Store(p, r).ins)
  {
  }

  /** Storing several records in turn. */
  function StoreAll(p: LegacyProgress, rs: seq<LegacyRecord>): (q: LegacyProgress)
    requires Aligned(p)
    ensures Aligned(q)
    decreases |rs|
  {
    if rs == [] then p else Store(StoreAll(p, rs[..|rs| - 1]), rs[|rs| - 1])
  }

  /** Storing never forgets a processed input. */
  lemma {:induction false} StoreAllKeeps(p: LegacyProgress, rs: seq<LegacyRecord>, x: string)
    requires Aligned(p) && x in p.ins
    ensures x in StoreAll(p, rs).ins
    decreases |rs|
  {
    if rs != [] {
      StoreAllKeeps(p, rs[..|rs| - 1], x);
    }
  }

  /** The lists of `q` appended to those of `p`. */
  function Extend(p: LegacyProgress, q: LegacyProgress): LegacyProgress {
    LegacyProgress(p.ins + q.ins, p.outPaths + q.outPaths, p.outs + q.outs, p.errs + q.errs, p.logPaths + q.logPaths)
  }

  /** `merge_progress`: the lists of each given step appended in order. `None` stands for
      the merging step itself, whose lists at that moment are appended to themselves. */
  function MergeAll(p: LegacyProgress, sources: seq<Option<LegacyProgress>>): LegacyProgress
    decreases |sources|
  {
    if sources == [] then p
    else
      var prev := MergeAll(p, sources[..|sources| - 1]);
      var last := sources[|sources| - 1];
      Extend(prev, if last.Some? then last.value else prev)
  }

  /** Merging aligned progress keeps it aligned, and merging other steps only appends:
      the inputs are the step's own followed by each source's in order. */
  lemma {:induction false} MergeAllSpec(p: LegacyProgress, sources: seq<Option<LegacyProgress>>)
    requires Aligned(p) && forall k :: 0 <= k < |sources| && sources[k].Some? ==> Aligned(sources[k].value)
    ensures Aligned(MergeAll(p, sources))
    ensures (forall k :: 0 <= k < |sources| ==> sources[k].Some?) ==>
              MergeAll(p, sources).ins == p.ins + ConcatIns(sources)
    decreases |sources|
  {
    if sources != [] {
      var init := sources[..|sources| - 1];
      MergeAllSpec(p, init);
      if forall k :: 0 <= k < |sources| ==> sources[k].Some? {
        assert forall k :: 0 <= k < |init| ==> init[k].Some? by {
          forall k | 0 <= k < |init| ensures init[k].Some? {
            assert init[k] == sources[k];
          }
        }
        AppendAssoc(p.ins, ConcatIns(init), sources[|sources| - 1].value.ins);
      }
    }
  }

  /** The inputs of all sources, in order; the merging step itself contributes nothing. */
  function ConcatIns(sources: seq<Option<LegacyProgress>>): seq<string>
    decreases |sources|
  {
    if sources == [] then []
    else
      var last := sources[|sources| - 1];
      ConcatIns(sources[..|sources| - 1]) + (if last.Some? then last.value.ins else [])
  }

  lemma AppendAssoc<T>(a: seq<T>, b: seq<T>, c: seq<T>)
    ensures (a + b) + c == a + (b + c)
  {
  }

  /** What the loop of `run` needs besides the progress: the step's flags, the keyword
      arguments, the number of scheduled inputs, the directory test on input paths, and the
      records the activated compute method stores for a call. */
  datatype Setup = Setup(
    nested: bool, overwrite: bool, kwargs: seq<Entry>, count: nat,
    isDir: string -> bool, compute: Call -> seq<LegacyRecord>)

  /** The state of the loop: the progress, the calls made so far, and the error that ended
      the loop, if any. */
  datatype LegacyOutcome = LegacyOutcome(progress: LegacyProgress, calls: seq<Call>, failure: Option<Error>)

  /** One turn of the loop for the `i`-th pair: both sides are reduced to their label, an
      input already processed is skipped unless the step overwrites, and otherwise the
      picked compute method runs and stores its records. An error ends the loop. */
  function LegacyStep(prev: LegacyOutcome, pair: (Scheduled, Scheduled), i: nat, setup: Setup): (o: LegacyOutcome)
    requires Aligned(prev.progress) && i < setup.count
    ensures Aligned(o.progress)
  {
    if prev.failure.Some? then prev
    else
      var inPath := LabelOf(pair.0);
      var outPath := LabelOf(pair.1);
      if inPath.Err? then prev.(failure := Some(inPath.error))
      else if outPath.Err? then prev.(failure := Some(outPath.error))
      else if inPath.value in prev.progress.ins && !setup.overwrite then prev
      else
        var call := Dispatch(setup.nested, setup.isDir(inPath.value), inPath.value, outPath.value,
                             ArgsAt(setup.kwargs, setup.count, i));
        LegacyOutcome(StoreAll(prev.progress, setup.compute(call)), prev.calls + [call], None)
  }

  /** The loop of `run` over the paired schedule. */
  function LegacyLoop(p: LegacyProgress, pairs: seq<(Scheduled, Scheduled)>, setup: Setup): (o: LegacyOutcome)
    requires Aligned(p) && |pairs| <= setup.count
    ensures Aligned(o.progress)
    decreases |pairs|
  {
    if pairs == [] then LegacyOutcome(p, [], None)
    else
      var n := |pairs| - 1;
      LegacyStep(LegacyLoop(p, pairs[..n], setup), pairs[n], n, setup)
  }

  lemma LegacyLoopSnoc(p: LegacyProgress, pairs: seq<(Scheduled, Scheduled)>, pair: (Scheduled, Scheduled), setup: Setup)
    requires Aligned(p) && |pairs| < setup.count
    ensures LegacyLoop(p, pairs + [pair], setup) == LegacyStep(LegacyLoop(p, pairs, setup), pair, |pairs|, setup)
  {
    assert (pairs + [pair])[..|pairs|] == pairs;
  }

  /** The loop never forgets a processed input. */
  lemma {:induction false} LegacyLoopKeeps(p: LegacyProgress, pairs: seq<(Scheduled, Scheduled)>, setup: Setup, x: string)
    requires Aligned(p) && |pairs| <= setup.count && x in p.ins
    ensures x in LegacyLoop(p, pairs, setup).progress.ins
    decreases |pairs|
  {
    if pairs != [] {
      var n := |pairs| - 1;
      LegacyLoopKeeps(p, pairs[..n], setup, x);
      var prev := LegacyLoop(p, pairs[..n], setup);
      var inPath := LabelOf(pairs[n].0);
      if prev.failure.None? && inPath.Ok? && LabelOf(pairs[n].1).Ok? {
        var call := Dispatch(setup.nested, setup.isDir(inPath.value), inPath.value, LabelOf(pairs[n].1).value,
                             ArgsAt(setup.kwargs, setup.count, n));
        StoreAllKeeps(prev.progress, setup.compute(call), x);
      }
    }
  }

  /** Without `overwrite`, no input processed before the loop is computed again; every
      call is the one the step's configuration picks for its input. */
  lemma {:induction false} LegacyLoopCalls(p: LegacyProgress, pairs: seq<(Scheduled, Scheduled)>, setup: Setup)
    requires Aligned(p) && |pairs| <= setup.count
    ensures var o := LegacyLoop(p, pairs, setup);
            && |o.calls| <= |pairs|
            && (forall c :: c in o.calls ==> Picked(c, setup.nested, setup.isDir))
            && (!setup.overwrite ==> forall c :: c in o.calls ==> CallIn(c) !in p.ins)
    decreases |pairs|
  {
    if pairs != [] {
      var n := |pairs| - 1;
      LegacyLoopCalls(p, pairs[..n], setup);
      var prev := LegacyLoop(p, pairs[..n], setup);
      forall x | x in p.ins
        ensures x in prev.progress.ins
      {
        LegacyLoopKeeps(p, pairs[..n], setup, x);
      }
    }
  }

  /** With `overwrite` and labels on every dict, each pair is computed, in order. */
  lemma {:induction false} LegacyOverwriteCallsAll(p: LegacyProgress, pairs: seq<(Scheduled, Scheduled)>, setup: Setup)
    requires Aligned(p) && |pairs| <= setup.count && setup.overwrite
    requires forall k :: 0 <= k < |pairs| ==> pairs[k].0 != Labelled(None) && pairs[k].1 != Labelled(None)
    ensures var o := LegacyLoop(p, pairs, setup);
            o.failure == None && |o.calls| == |pairs|
            && forall k :: 0 <= k < |pairs| ==> CallIn(o.calls[k]) == LabelOf(pairs[k].0).value
    decreases |pairs|
  {
    if pairs != [] {
      var n := |pairs| - 1;
      LegacyOverwriteCallsAll(p, pairs[..n], setup);
    }
  }

  /** The older `Pipe_Step`. `scheduledIn`/`scheduledOut` are the schedule, the other five
      lists the progress. */
  class LegacyPipeStep {
    var overwrite: bool
    var nested: bool
    var scheduledIn: seq<Scheduled>
    var scheduledOut: seq<Scheduled>
    var processedIn: seq<string>
    var processedOut: seq<string>
    var outs: seq<string>
    var errs: seq<string>
    var logPaths: seq<string>

    function State(): LegacyProgress
      reads this
    {
      LegacyProgress(processedIn, processedOut, outs, errs, logPaths)
    }

    predicate Valid()
      reads this
    {
      Aligned(State())
    }

    constructor (overwrite: bool, nested: bool)
      ensures Valid() && State() == LegacyProgress([], [], [], [], [])
      ensures scheduledIn == [] && scheduledOut == []
      ensures this.overwrite == overwrite && this.nested == nested
    {
      this.overwrite := overwrite;
      this.nested := nested;
      scheduledIn := [];
      scheduledOut := [];
      processedIn := [];
      processedOut := [];
      outs := [];
      errs := [];
      logPaths := [];
    }

    /** `store_progress(in_path, out_path, out, err, log_path)`. */
    method StoreProgress(r: LegacyRecord)
      requires Valid()
      modifies this`processedOut, this`outs, this`errs, this`logPaths, this`processedIn
      ensures Valid() && State() == Store(old(State()), r)
    {
      if r.inPath in processedIn {
        var i := IndexOf(processedIn, r.inPath);
        processedOut := processedOut[i := r.outPath];
        outs := outs[i := r.out];
        errs := errs[i := r.err];
        logPaths := logPaths[i := r.logPath];
      } else {
        processedIn := processedIn + [r.inPath];
        processedOut := processedOut + [r.outPath];
        outs := outs + [r.out];
        errs := errs + [r.err];
        logPaths := logPaths + [r.logPath];
      }
    }

    /** What `merge_progress` appends for each given step: its lists as they are before the
        merge, or `None` for this step itself. */
    function Sources(steps: seq<LegacyPipeStep>): seq<Option<LegacyProgress>>
      reads steps
    {
      seq(|steps|, k requires 0 <= k < |steps| reads steps => if steps[k] == this then None else Some(steps[k].State()))
    }

    /** `merge_progress(pipe_steps)`. */
    method MergeProgress(steps: seq<LegacyPipeStep>)
      requires Valid() && forall s :: s in steps ==> s.Valid()
      modifies this`processedIn, this`processedOut, this`outs, this`errs, this`logPaths
      ensures Valid() && State() == MergeAll(old(State()), old(Sources(steps)))
    {
      ghost var sources := Sources(steps);
      ghost var start := State();
      var k := 0;
      while k < |steps|
        invariant 0 <= k <= |steps|
        invariant forall j :: 0 <= j < |steps| && steps[j] != this ==> steps[j].State() == sources[j].value
        invariant State() == MergeAll(start, sources[..k])
      {
        var step := steps[k];
        TakeSnoc(sources, k);
        processedIn := processedIn + step.processedIn;
        processedOut := processedOut + step.processedOut;
        outs := outs + step.outs;
        errs := errs + step.errs;
        logPaths := logPaths + step.logPaths;
        k := k + 1;
      }
      TakeAll(sources);
      forall j | 0 <= j < |sources| && sources[j].Some?
        ensures Aligned(sources[j].value)
      {
        assert steps[j] in steps;
      }
      MergeAllSpec(start, sources);
    }

    /** One turn of the loop of `run`. */
    method Visit(pair: (Scheduled, Scheduled), i: nat, setup: Setup, ghost prev: LegacyOutcome)
      returns (failure: Option<Error>, ghost call: Option<Call>)
      requires Valid() && i < setup.count && setup.overwrite == overwrite && setup.nested == nested
      requires prev.progress == State() && prev.failure == None
      modifies this`processedIn, this`processedOut, this`outs, this`errs, this`logPaths
      ensures Valid()
      ensures var o := LegacyStep(prev, pair, i, setup);
              o.progress == State() && o.failure == failure
              && o.calls == prev.calls + (if call.Some? then [call.value] else [])
    {
      var inPath := LabelOf(pair.0);
      var outPath := LabelOf(pair.1);
      call := None;
      if inPath.Err? {
        return Some(inPath.error), None;
      }
      if outPath.Err? {
        return Some(outPath.error), None;
      }
      failure := None;
      if !(inPath.value in processedIn && !overwrite) {
        var args := ArgsAt(setup.kwargs, setup.count, i);
        var c := Dispatch(nested, setup.isDir(inPath.value), inPath.value, outPath.value, args);
        var records := setup.compute(c);
        var n := 0;
        while n < |records|
          invariant 0 <= n <= |records|
          invariant Valid() && State() == StoreAll(prev.progress, records[..n])
        {
          TakeSnoc(records, n);
          StoreProgress(records[n]);
          n := n + 1;
        }
        TakeAll(records);
        call := Some(c);
      }
    }

    /** The loop of `run` over the paired schedule; it stops at the first error. */
    method DistributeAll(pairs: seq<(Scheduled, Scheduled)>, setup: Setup) returns (failure: Option<Error>, ghost calls: seq<Call>)
      requires Valid() && |pairs| <= setup.count && setup.overwrite == overwrite && setup.nested == nested
      modifies this`processedIn, this`processedOut, this`outs, this`errs, this`logPaths
      ensures Valid() && LegacyOutcome(State(), calls, failure) == LegacyLoop(old(State()), pairs, setup)
    {
      ghost var start := State();
      calls := [];
      failure := None;
      var k := 0;
      while k < |pairs|
        invariant 0 <= k <= |pairs| && Valid()
        invariant LegacyOutcome(State(), calls, failure) == LegacyLoop(start, pairs[..k], setup)
        invariant failure == None
      {
        ghost var prev := LegacyOutcome(State(), calls, None);
        LegacyLoopSnoc(start, pairs[..k], pairs[k], setup);
        TakeSnoc(pairs, k);
        ghost var call;
        failure, call := Visit(pairs[k], k, setup, prev);
        if call.Some? {
          calls := calls + [call.value];
        }
        assert LegacyOutcome(State(), calls, failure) == LegacyStep(prev, pairs[k], k, setup);
        if failure.Some? {
          assert LegacyOutcome(State(), calls, failure) == LegacyLoop(start, pairs[..k + 1], setup);
          LegacyLoopFailed(start, pairs, k + 1, setup);
          return;
        }
        k := k + 1;
      }
      TakeAll(pairs);
    }

    /** `run(in_paths, out_paths, **kwargs)`: the paths join the schedule, the outputs are
        defaulted and padded, each pair is computed unless skipped, and on success the
        schedule is cleared and the processed outputs are returned. An error leaves the
        schedule as it was when the error was raised. */
    method Run(inPaths: seq<Scheduled>, outPaths: seq<Scheduled>, kwargs: seq<Entry>,
               isDir: string -> bool, compute: Call -> seq<LegacyRecord>)
      returns (r: Result<seq<string>>, ghost calls: seq<Call>)
      requires Valid()
      modifies this`scheduledIn, this`scheduledOut, this`processedIn, this`processedOut, this`outs, this`errs, this`logPaths
      ensures Valid()
      ensures var ins := old(scheduledIn) + inPaths;
              var padded := PadOuts(ins, old(scheduledOut) + outPaths);
              && (padded.Err? ==>
                    && r == Err(padded.error) && State() == old(State()) && calls == []
                    && scheduledIn == ins && scheduledOut == old(scheduledOut) + outPaths)
              && (padded.Ok? ==>
                    var o := LegacyLoop(old(State()), Zip(ins, padded.value),
                                        Setup(nested, overwrite, kwargs, |ins|, isDir, compute));
                    State() == o.progress && calls == o.calls
                    && (o.failure.None? ==> r == Ok(processedOut) && scheduledIn == [] && scheduledOut == [])
                    && (o.failure.Some? ==> r == Err(o.failure.value) && scheduledIn == ins
                                            && scheduledOut == padded.value))
    {
      scheduledIn := scheduledIn + inPaths;
      scheduledOut := scheduledOut + outPaths;
      var padded := PadOuts(scheduledIn, scheduledOut);
      if padded.Err? {
        return Err(padded.error), [];
      }
      scheduledOut := padded.value;
      var setup := Setup(nested, overwrite, kwargs, |scheduledIn|, isDir, compute);
      var failure;
      failure, calls := DistributeAll(Zip(scheduledIn, scheduledOut), setup);
      if failure.Some? {
        return Err(failure.value), calls;
      }
      scheduledIn := [];
      scheduledOut := [];
      r := Ok(processedOut);
    }
  }

  /** Once the loop has failed, the remaining pairs change nothing. */
  lemma {:induction false} LegacyLoopFailed(p: LegacyProgress, pairs: seq<(Scheduled, Scheduled)>, k: nat, setup: Setup)
    requires Aligned(p) && |pairs| <= setup.count && k <= |pairs|
    requires LegacyLoop(p, pairs[..k], setup).failure.Some?
    ensures LegacyLoop(p, pairs, setup) == LegacyLoop(p, pairs[..k], setup)
    decreases |pairs| - k
  {
    if k < |pairs| {
      LegacyLoopSnoc(p, pairs[..k], pairs[k], setup);
      TakeSnoc(pairs, k);
      LegacyLoopFailed(p, pairs, k + 1, setup);
    } else {
      TakeAll(pairs);
    }
  }
}
