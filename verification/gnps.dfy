/** The GNPS step: reading the task mzmine submitted from its log, checking the task's
    status, preparing an own submission, choosing the runner, and collecting the input files
    of a directory run. The network calls and the JSON decoding are parameters. */
module Gnps {
  import opened Wrappers
  import opened Text
  import opened StepValues
  import PipeSteps
  import Analysis
  import Sequences

  /** The keys of the step's file patterns, in their order. */
  const PatternKeys: seq<string> :=
    ["mzmine_log", "feature_quantification", "feature_ms2", "additional_pairs", "sample_metadata"]

  /** The text mzmine logs before the response of its GNPS submission. */
  const MzmineLogQuery: string :=
    "io.github.mzmine.modules.io.export_features_gnps.GNPSUtils submitFbmnJob GNPS FBMN/IIMN response: "

  lemma PatternKeysDistinct()
    ensures forall i, j :: 0 <= i < j < |PatternKeys| ==> PatternKeys[i] != PatternKeys[j]
  {
  }

  /** The step's file patterns, pattern id to regular expression. */
  const Patterns: map<string, string> :=
    map["mzmine_log" := ".*mzmine_log\\.txt$",
        "feature_quantification" := ".*fbmn_quant\\.csv$",
        "feature_ms2" := ".*fbmn\\.mgf$",
        "additional_pairs" := ".*metadata\\.(tsv|csv)",
        "sample_metadata" := ".*metadata\\.(tsv|csv)"]

  /** The mandatory patterns the step keeps from `Pipe_Step`'s default. */
  const MandatoryPatterns: map<string, string> := map["in" := ".*"]

  lemma PatternKeysArePatterns()
    ensures forall k :: k in Patterns <==> k in PatternKeys
  {
  }

  /** `contruct_full_regex(id)` over the step's two pattern tables. */
  function FullRegex(id: string): (r: Option<string>)
    ensures r.None? <==> id !in Patterns && id !in MandatoryPatterns
    ensures id in Patterns && id !in MandatoryPatterns ==> r == Some(Patterns[id])
  {
    var p := if id in Patterns then Patterns[id] else "";
    var m := if id in MandatoryPatterns then MandatoryPatterns[id] else "";
    if p != "" && m != "" then Some("(?=" + p + ")(?=" + m + ")")
    else if p != "" then Some(p)
    else if m != "" then Some(m)
    else None
  }

  /** `match_path(pattern=id, path)`: the full regex of the id searched in the path; an id
      with no regex matches nothing. `search` stands for `regex.search`. */
  function MatchPath(id: string, path: string, search: (string, string) -> bool): (b: bool)
    ensures b <==> FullRegex(id).Some? && search(FullRegex(id).value, path)
    ensures b ==> id in Patterns || id in MandatoryPatterns
  {
    match FullRegex(id)
    case None => false
    case Some(regex) => search(regex, path)
  }

  /** The directory scan as `run_directory` writes it: the pattern's regex text is passed
      where `match_path` expects a pattern id. */
  function MatchesAsWritten(search: (string, string) -> bool): (string, string) -> bool {
    (key: string, entry: string) => key in Patterns && MatchPath(Patterns[key], entry, search)
  }

  /** The scan as intended: the file type is the pattern id. */
  function Matches(search: (string, string) -> bool): (string, string) -> bool {
    (key: string, entry: string) => MatchPath(key, entry, search)
  }

  /** No regex text of the step is a pattern id, so the scan as written matches nothing,
      whatever the regex engine answers. */
  lemma AsWrittenNeverMatches(search: (string, string) -> bool, key: string, entry: string)
    ensures !MatchesAsWritten(search)(key, entry)
  {
    if key in Patterns {
      var regex := Patterns[key];
      assert regex[0] == '.';
      forall k | k in Patterns || k in MandatoryPatterns ensures k != regex {
        assert k[0] != '.';
      }
    }
  }

  /** Under an id of the step, the intended scan is the search for that id's regex. */
  lemma MatchesSearchesPattern(search: (string, string) -> bool, key: string, entry: string)
    requires key in Patterns
    ensures Matches(search)(key, entry) <==> search(Patterns[key], entry)
  {
  }

  // ---------------------------------------------------------------------------------------
  // query_response_iterator and extract_task_info

  /** The position of the first `c` in `s`. */
  function FirstIndex(s: string, c: char): (r: Option<nat>)
    ensures r.Some? ==> r.value < |s| && s[r.value] == c && forall j :: 0 <= j < r.value ==> s[j] != c
    ensures r.None? ==> forall j :: 0 <= j < |s| ==> s[j] != c
    decreases |s|
  {
    if s == [] then None
    else if s[0] == c then Some(0)
    else match FirstIndex(s[1..], c)
      case Some(k) => Some(k + 1)
      case None => None
  }

  /** The position of the last `c` in `s`. */
  function LastIndex(s: string, c: char): (r: Option<nat>)
    ensures r.Some? ==> r.value < |s| && s[r.value] == c && forall j :: r.value < j < |s| ==> s[j] != c
    ensures r.None? ==> forall j :: 0 <= j < |s| ==> s[j] != c
    decreases |s|
  {
    if s == [] then None
    else if s[|s| - 1] == c then Some(|s| - 1)
    else LastIndex(s[..|s| - 1], c)
  }

  /** `re.search(r"{.*}", text)[0]`: the text from the first `{` to the last `}`, when that
      `}` comes after the `{`; otherwise the search gives `None` and subscripting it raises
      `TypeError`. */
  function JsonSpan(text: string): (r: Result<string>)
    ensures r.Ok? <==> exists a, b :: 0 <= a < b < |text| && text[a] == '{' && text[b] == '}'
    ensures r.Ok? ==> exists a, b :: 0 <= a < b < |text| && text[a] == '{' && text[b] == '}'
                        && r.value == text[a..b + 1]
                        && (forall j :: 0 <= j < a ==> text[j] != '{')
                        && (forall j :: b < j < |text| ==> text[j] != '}')
    ensures r.Err? ==> r.error == TypeError
  {
    var first := FirstIndex(text, '{');
    var last := LastIndex(text, '}');
    if first.Some? && last.Some? && first.value < last.value then
      Ok(text[first.value..last.value + 1])
    else
      assert forall a, b :: 0 <= a < b < |text| && text[a] == '{' && text[b] == '}' ==>
        first.Some? && last.Some? && first.value <= a && b <= last.value;
      Err(TypeError)
  }

  /** A log line holding the response after text without `{` gives the whole response. */
  lemma JsonSpanOfResponse(prefix: string, body: string)
    requires '{' !in prefix
    ensures JsonSpan(prefix + "{" + body + "}") == Ok("{" + body + "}")
  {
    var text := prefix + "{" + body + "}";
    var b := |text| - 1;
    assert text[|prefix|] == '{' && text[b] == '}';
    forall j | 0 <= j < |prefix| ensures text[j] != '{' {
      assert text[j] == prefix[j];
    }
    assert FirstIndex(text, '{') == Some(|prefix|);
    assert LastIndex(text, '}') == Some(b);
    assert text[|prefix|..b + 1] == "{" + body + "}";
  }

  /** `line.replace(query, "")`; an empty query leaves the line as it is. */
  function RemoveQuery(line: string, query: string): string {
    if query == "" then line else Replace(line, query, "")
  }

  /** The position of the first line that contains the query. */
  function FirstHit(query: string, lines: seq<string>): (r: Option<nat>)
    ensures r.Some? ==> r.value < |lines| && Contains(lines[r.value], query)
                        && forall j :: 0 <= j < r.value ==> !Contains(lines[j], query)
    ensures r.None? ==> forall j :: 0 <= j < |lines| ==> !Contains(lines[j], query)
    decreases |lines|
  {
    if lines == [] then None
    else if Contains(lines[0], query) then Some(0)
    else match FirstHit(query, lines[1..])
      case Some(k) => Some(k + 1)
      case None => None
  }

  /** What `query_response_iterator` hands to `json.loads`: the span of the first line that
      contains the query, once the query is removed from it. No such line raises
      `ValueError` (through `logger.error`). */
  function QueryResponse(query: string, lines: seq<string>): (r: Result<string>)
    ensures r == Err(ValueError) <==> forall i :: 0 <= i < |lines| ==> !Contains(lines[i], query)
  {
    match FirstHit(query, lines)
    case None => Err(ValueError)
    case Some(i) => JsonSpan(RemoveQuery(lines[i], query))
  }

  /** The response comes from the first line that contains the query, whatever follows. */
  lemma QueryResponseFirst(query: string, lines: seq<string>, i: nat)
    requires i < |lines| && Contains(lines[i], query)
    requires forall j :: 0 <= j < i ==> !Contains(lines[j], query)
    ensures QueryResponse(query, lines) == JsonSpan(RemoveQuery(lines[i], query))
  {
    var k := FirstHit(query, lines);
    assert k.Some?;
    assert !(k.value < i) && !(i < k.value);
  }

  /** `query_response_iterator(query, iterator)`: the loop that returns at the first hit. */
  method QueryResponseIterator(query: string, lines: seq<string>) returns (r: Result<string>)
    ensures r == QueryResponse(query, lines)
  {
    var i := 0;
    while i < |lines|
      invariant 0 <= i <= |lines|
      invariant forall j :: 0 <= j < i ==> !Contains(lines[j], query)
    {
      if Contains(lines[i], query) {
        QueryResponseFirst(query, lines, i);
        var text := if query == "" then lines[i] else Replace(lines[i], query, "");
        return JsonSpan(text);
      }
      i := i + 1;
    }
    return Err(ValueError);
  }

  /** `extract_task_info(query, mzmine_log)`: a directory stands for its `mzmine_log.txt`; an
      existing file is searched line by line (`readLines` stands for `readlines`); any other
      value is taken as the log text itself and split on line breaks. */
  function ExtractTaskInfo(query: string, mzmineLog: string, isDir: string -> bool, isFile: string -> bool,
                           readLines: string -> seq<string>): (r: Result<string>)
    ensures isDir(mzmineLog) && isFile(PathJoin(mzmineLog, "mzmine_log.txt")) ==>
              r == QueryResponse(query, readLines(PathJoin(mzmineLog, "mzmine_log.txt")))
    ensures isDir(mzmineLog) && !isFile(PathJoin(mzmineLog, "mzmine_log.txt")) ==>
              r == QueryResponse(query, Split(PathJoin(mzmineLog, "mzmine_log.txt"), '\n'))
    ensures !isDir(mzmineLog) && isFile(mzmineLog) ==> r == QueryResponse(query, readLines(mzmineLog))
    ensures !isDir(mzmineLog) && !isFile(mzmineLog) ==> r == QueryResponse(query, Split(mzmineLog, '\n'))
  {
    var path := if isDir(mzmineLog) then PathJoin(mzmineLog, "mzmine_log.txt") else mzmineLog;
    if isFile(path) then QueryResponse(query, readLines(path))
    else QueryResponse(query, Split(path, '\n'))
  }

  /** Log text whose one line carries the response gives that response. */
  lemma LogTextResponse(query: string, prefix: string, body: string)
    requires query != "" && '{' !in prefix && '\n' !in prefix + query + body
    requires !Contains(prefix, query) && '}' !in query
    ensures Split(prefix + query + "{" + body + "}", '\n') == [prefix + query + "{" + body + "}"]
  {
    var line := prefix + query + "{" + body + "}";
    assert '\n' !in line by {
      assert line == (prefix + query + body)[..|prefix + query|] + "{" + (prefix + query + body)[|prefix + query|..] + "}";
    }
    SplitWithoutSep(line, '\n');
  }

  // ---------------------------------------------------------------------------------------
  // check_task_finished

  /** The task id of a GNPS response: present only for status `"Success"`; another status
      raises `ValueError` (through `logger.error`), a missing key `KeyError`. */
  function TaskId(response: seq<Entry>): (r: Result<Value>)
    ensures r.Ok? <==> Lookup(response, "status") == Some(VStr("Success")) && "task_id" in Keys(response)
    ensures r.Ok? ==> Lookup(response, "task_id") == Some(r.value)
    ensures r == Err(ValueError) <==> "status" in Keys(response) && Lookup(response, "status") != Some(VStr("Success"))
    ensures r.Err? ==> r.error == ValueError || r.error == KeyError
  {
    match Lookup(response, "status")
    case None => Err(KeyError)
    case Some(status) =>
      if status != VStr("Success") then Err(ValueError)
      else match Lookup(response, "task_id")
        case None => Err(KeyError)
        case Some(id) => Ok(id)
  }

  /** `check_task_finished(mzmine_log, gnps_response)`: without a (truthy) response the one
      read from the mzmine log is used (`fromLog`, the decoded result of `ExtractTaskInfo`);
      the result pairs the task id with the outcome of polling its status (`done`). */
  function CheckTaskFinished(gnpsResponse: Option<seq<Entry>>, fromLog: Result<seq<Entry>>, done: Value -> bool)
    : (r: Result<(Value, bool)>)
    ensures gnpsResponse.Some? && gnpsResponse.value != [] ==>
              (r.Ok? <==> TaskId(gnpsResponse.value).Ok?)
              && (r.Ok? ==> r.value.0 == TaskId(gnpsResponse.value).value)
    ensures r.Ok? ==> r.value.1 == done(r.value.0)
    ensures (gnpsResponse.None? || gnpsResponse.value == []) && fromLog.Err? ==> r == Err(fromLog.error)
  {
    var response := if gnpsResponse.Some? && gnpsResponse.value != [] then Ok(gnpsResponse.value) else fromLog;
    match response
    case Err(e) => Err(e)
    case Ok(resp) =>
      match TaskId(resp)
      case Err(e) => Err(e)
      case Ok(id) => Ok((id, done(id)))
  }

  // ---------------------------------------------------------------------------------------
  // submit_to_gnps

  /** The upload name of a path argument: its name with every `_` removed. */
  function UploadKey(name: string): (r: string)
    ensures '_' !in r
  {
    RemoveCharGone(name, '_');
    Replace(name, "_", "")
  }

  /** `{name.replace("_", ""): path for name, path in paths.items() if path}`: later names that
      map to the same upload name overwrite the value in place. */
  function UploadFiles(paths: seq<Entry>): seq<Entry>
    decreases |paths|
  {
    if paths == [] then []
    else
      var prev := UploadFiles(paths[..|paths| - 1]);
      var e := paths[|paths| - 1];
      if Truthy(e.value) then Put(prev, UploadKey(e.key), e.value) else prev
  }

  /** Whether the path at `i` is truthy and uploads under `key`. */
  predicate Provides(paths: seq<Entry>, i: nat, key: string)
    requires i < |paths|
  {
    Truthy(paths[i].value) && UploadKey(paths[i].key) == key
  }

  /** The last path that uploads under `key`. */
  function LastProvider(paths: seq<Entry>, key: string): (r: Option<nat>)
    ensures r.Some? ==> r.value < |paths| && Provides(paths, r.value, key)
                        && forall j :: r.value < j < |paths| ==> !Provides(paths, j, key)
    ensures r.None? ==> forall j :: 0 <= j < |paths| ==> !Provides(paths, j, key)
    decreases |paths|
  {
    if paths == [] then None
    else if Provides(paths, |paths| - 1, key) then Some(|paths| - 1)
    else
      var r := LastProvider(paths[..|paths| - 1], key);
      assert forall j :: 0 <= j < |paths| - 1 ==> (Provides(paths[..|paths| - 1], j, key) <==> Provides(paths, j, key));
      r
  }

  /** An upload name holds the last truthy path with that name, and is absent when there is
      none. */
  lemma {:induction false} UploadFilesLookup(paths: seq<Entry>, key: string)
    ensures Lookup(UploadFiles(paths), key) ==
              match LastProvider(paths, key)
              case Some(i) => Some(paths[i].value)
              case None => None
    decreases |paths|
  {
    if paths != [] {
      var n := |paths| - 1;
      var init := paths[..n];
      var e := paths[n];
      UploadFilesLookup(init, key);
      if Truthy(e.value) {
        PutLookup(UploadFiles(init), UploadKey(e.key), e.value, key);
      }
      if !Provides(paths, n, key) {
        var p := LastProvider(init, key);
        assert LastProvider(paths, key) == p;
        if p.Some? {
          assert init[p.value] == paths[p.value];
        }
      }
    }
  }

  /** Upload names hold no `_`. */
  lemma UploadKeysPlain(paths: seq<Entry>, key: string)
    requires key in Keys(UploadFiles(paths))
    ensures '_' !in key
  {
    UploadFilesLookup(paths, key);
  }

  /** `submit_to_gnps(**paths)` up to the upload: the files to send, which must include the
      feature spectra and the feature quantification; otherwise `ValueError`. */
  function SubmitFiles(paths: seq<Entry>): (r: Result<seq<Entry>>)
    ensures r.Ok? <==> "featurems2" in Keys(UploadFiles(paths)) && "featurequantification" in Keys(UploadFiles(paths))
    ensures r.Ok? ==> r.value == UploadFiles(paths)
    ensures r.Err? ==> r.error == ValueError
  {
    var files := UploadFiles(paths);
    if "featurems2" !in Keys(files) || "featurequantification" !in Keys(files) then Err(ValueError)
    else Ok(files)
  }

  /** A name with one `_` loses it. */
  lemma UploadKeySplit(name: string, a: string, b: string)
    requires name == a + "_" + b && '_' !in a && '_' !in b
    ensures UploadKey(name) == a + b
  {
    assert a + "_" + b == a + ['_'] + b;
    RemoveCharBetween(a, '_', b);
  }

  lemma SplitFeatureMs2(name: string, a: string, b: string, r: string)
    requires name == "feature_ms2" && a == "feature" && b == "ms2" && r == "featurems2"
    ensures name == a + "_" + b && '_' !in a && '_' !in b && r == a + b
  {
  }

  lemma SplitFeatureQuantification(name: string, a: string, b: string, r: string)
    requires name == "feature_quantification" && a == "feature" && b == "quantification"
    requires r == "featurequantification"
    ensures name == a + "_" + b && '_' !in a && '_' !in b && r == a + b
  {
  }

  lemma SplitAdditionalPairs(name: string, a: string, b: string, r: string)
    requires name == "additional_pairs" && a == "additional" && b == "pairs" && r == "additionalpairs"
    ensures name == a + "_" + b && '_' !in a && '_' !in b && r == a + b
  {
  }

  lemma SplitSampleMetadata(name: string, a: string, b: string, r: string)
    requires name == "sample_metadata" && a == "sample" && b == "metadata" && r == "samplemetadata"
    ensures name == a + "_" + b && '_' !in a && '_' !in b && r == a + b
  {
  }

  /** The upload names of the four optional inputs. */
  lemma ResubmitUploadKeys(ms2: string, quantification: string, pairs: string, metadata: string)
    requires ms2 == "feature_ms2" && quantification == "feature_quantification"
    requires pairs == "additional_pairs" && metadata == "sample_metadata"
    ensures UploadKey(ms2) == "featurems2" && UploadKey(quantification) == "featurequantification"
    ensures UploadKey(pairs) == "additionalpairs" && UploadKey(metadata) == "samplemetadata"
  {
    var feature, additional, sample := "feature", "additional", "sample";
    var m, q, p, d := "ms2", "quantification", "pairs", "metadata";
    SplitFeatureMs2(ms2, feature, m, "featurems2");
    UploadKeySplit(ms2, feature, m);
    SplitFeatureQuantification(quantification, feature, q, "featurequantification");
    UploadKeySplit(quantification, feature, q);
    SplitAdditionalPairs(pairs, additional, p, "additionalpairs");
    UploadKeySplit(pairs, additional, p);
    SplitSampleMetadata(metadata, sample, d, "samplemetadata");
    UploadKeySplit(metadata, sample, d);
  }

  /** An own submission over optional inputs whose first two upload as the feature spectra
      and the feature quantification, and the others as neither, goes ahead exactly when
      the input paths give truthy values for the first two. */
  lemma ResubmitAccepted(inPath: seq<Entry>, keys: seq<string>)
    requires |keys| == 4 && UploadKey(keys[0]) == "featurems2" && UploadKey(keys[1]) == "featurequantification"
    requires forall k :: 2 <= k < 4 ==> UploadKey(keys[k]) != "featurems2" && UploadKey(keys[k]) != "featurequantification"
    requires forall i, j :: 0 <= i < j < |keys| ==> keys[i] != keys[j]
    ensures SubmitFiles(PipeSteps.Optionals(inPath, keys)).Ok? <==>
              Truthy(Lookup(inPath, keys[0]).GetOr(VNone)) && Truthy(Lookup(inPath, keys[1]).GetOr(VNone))
  {
    assert "featurems2" != "featurequantification" by {
      assert "featurems2"[7] != "featurequantification"[7];
    }
    ProviderAt(inPath, keys, 0, "featurems2");
    ProviderAt(inPath, keys, 1, "featurequantification");
  }

  /** With distinct keys, an upload name that only key `i` gives is among the uploads
      exactly when the input path under key `i` is truthy. */
  lemma ProviderAt(inPath: seq<Entry>, keys: seq<string>, i: nat, key: string)
    requires i < |keys| && UploadKey(keys[i]) == key
    requires forall j :: 0 <= j < |keys| && j != i ==> UploadKey(keys[j]) != key
    requires forall i, j :: 0 <= i < j < |keys| ==> keys[i] != keys[j]
    ensures key in Keys(UploadFiles(PipeSteps.Optionals(inPath, keys))) <==> Truthy(Lookup(inPath, keys[i]).GetOr(VNone))
  {
    var o := PipeSteps.Optionals(inPath, keys);
    OptionalsOfDistinct(inPath, keys);
    OnlyProvider(o, keys, i, key);
  }

  /** With distinct keys, the optionals hold entry `i` under key `i`. */
  lemma OptionalsOfDistinct(inPath: seq<Entry>, keys: seq<string>)
    requires forall i, j :: 0 <= i < j < |keys| ==> keys[i] != keys[j]
    ensures |PipeSteps.Optionals(inPath, keys)| == |keys|
    ensures forall i :: 0 <= i < |keys| ==>
              PipeSteps.Optionals(inPath, keys)[i] == Entry(keys[i], Lookup(inPath, keys[i]).GetOr(VNone))
  {
    var o := PipeSteps.Optionals(inPath, keys);
    PipeSteps.OptionalsKeys(inPath, keys);
    PipeSteps.OptionalsDistinctKeys(inPath, keys);
    forall i | 0 <= i < |keys| ensures o[i] == Entry(keys[i], Lookup(inPath, keys[i]).GetOr(VNone)) {
      assert Keys(o)[i] == o[i].key;
      assert PipeSteps.Values(o)[i] == o[i].value;
    }
  }

  /** An upload name that only the entry at `i` can give is present exactly when that
      entry is truthy. */
  lemma OnlyProvider(o: seq<Entry>, keys: seq<string>, i: nat, key: string)
    requires |o| == |keys| && i < |keys| && UploadKey(keys[i]) == key
    requires forall j :: 0 <= j < |keys| ==> o[j].key == keys[j]
    requires forall j :: 0 <= j < |keys| && j != i ==> UploadKey(keys[j]) != key
    ensures key in Keys(UploadFiles(o)) <==> Truthy(o[i].value)
  {
    UploadFilesLookup(o, key);
    var p := LastProvider(o, key);
    if Truthy(o[i].value) {
      assert Provides(o, i, key);
    }
    if p.Some? {
      assert p.value == i;
    }
  }

  /** The inputs `gnps_check_resubmit` passes on. */
  lemma ResubmitKeysAccepted(inPath: seq<Entry>, ms2: string, quantification: string, pairs: string, metadata: string)
    requires ms2 == "feature_ms2" && quantification == "feature_quantification"
    requires pairs == "additional_pairs" && metadata == "sample_metadata"
    ensures SubmitFiles(PipeSteps.Optionals(inPath, [ms2, quantification, pairs, metadata])).Ok? <==>
              Truthy(Lookup(inPath, ms2).GetOr(VNone)) && Truthy(Lookup(inPath, quantification).GetOr(VNone))
  {
    ResubmitUploadKeys(ms2, quantification, pairs, metadata);
    var keys := [ms2, quantification, pairs, metadata];
    assert ms2[8] != quantification[8] && ms2[0] != pairs[0] && ms2[0] != metadata[0];
    assert quantification[0] != pairs[0] && quantification[0] != metadata[0] && pairs[0] != metadata[0];
    assert forall i, j :: 0 <= i < j < |keys| ==> keys[i] != keys[j];
    ResubmitAccepted(inPath, [ms2, quantification, pairs, metadata]);
  }

  // ---------------------------------------------------------------------------------------
  // distribute_scheduled

  /** Whether some truthy value has the property. */
  predicate AnyTruthy(values: seq<Value>, p: Value -> bool) {
    exists i :: 0 <= i < |values| && Truthy(values[i]) && p(values[i])
  }

  /** The runner `distribute_scheduled` names: `"nested"` for a nested step; otherwise every
      truthy input under one of the pattern keys is handed to `os.path.isdir`, which raises
      `TypeError` for one that is not a path (a list, a dict), and the run is `"directory"`
      when one of them is a directory, else `"single"`. The input paths must be present
      (`KeyError`). `extract_optional` tests each pattern key with `in`: on a path string that
      is a substring test, on a list an item test, and a key found there is then used as an
      index, which raises `TypeError`; so such an input names `"single"` exactly when no
      pattern key is found in it. */
  function RunnerName(nested: bool, scheduledIo: seq<Entry>, isDir: Value -> bool): (r: Result<string>)
    ensures r == Ok("nested") <==> nested
    ensures !nested && Lookup(scheduledIo, "in_path").None? ==> r == Err(KeyError)
    ensures r.Ok? ==> r.value in {"nested", "directory", "single"}
    ensures r.Err? ==> r.error in {KeyError, TypeError}
    ensures !nested && Lookup(scheduledIo, "in_path").Some? && !Lookup(scheduledIo, "in_path").value.VDict? ==>
              (r == Ok("single") || r == Err(TypeError))
    ensures !nested && Lookup(scheduledIo, "in_path") == Some(VStr(PathOf(scheduledIo))) ==>
              (r == Ok("single") <==> forall i :: 0 <= i < |PatternKeys| ==> !Contains(PathOf(scheduledIo), PatternKeys[i]))
  {
    RunnerChoice(nested, Lookup(scheduledIo, "in_path"), isDir)
  }

  /** The choice of `RunnerName` from the combination's `in_path`, if any. */
  function RunnerChoice(nested: bool, inPathEntry: Option<Value>, isDir: Value -> bool): Result<string> {
    if nested then Ok("nested")
    else match inPathEntry
      case None => Err(KeyError)
      case Some(inPath) => if inPath.VDict? then DictChoice(inPath.entries, isDir) else PlainChoice(inPath)
  }

  /** The choice for a dict of inputs: the truthy optionals under the pattern keys are each
      handed to `os.path.isdir`. */
  function DictChoice(entries: seq<Entry>, isDir: Value -> bool): (r: Result<string>)
    ensures r == Err(TypeError) || r == Ok("directory") || r == Ok("single")
  {
    var values := PipeSteps.Values(PipeSteps.Optionals(entries, PatternKeys));
    if AnyTruthy(values, PipeSteps.NotPathLike) then Err(TypeError)
    else if AnyTruthy(values, isDir) then Ok("directory")
    else Ok("single")
  }

  /** The choice for any other input: single when no pattern key is `in` it. */
  function PlainChoice(inPath: Value): (r: Result<string>)
    ensures r == Ok("single") || r == Err(TypeError)
  {
    if forall i :: 0 <= i < |PatternKeys| ==> PipeSteps.PyIn(PatternKeys[i], inPath) == Ok(false) then Ok("single")
    else Err(TypeError)
  }

  /** The `in_path` of a combination as a path string, "" when it is none. */
  function PathOf(scheduledIo: seq<Entry>): string {
    match Lookup(scheduledIo, "in_path")
    case Some(VStr(s)) => s
    case _ => ""
  }

  /** A path string without any pattern key in it runs single; one that holds a pattern key
      raises `TypeError`. */
  lemma RunnerNamePlainString(isDir: Value -> bool)
    ensures RunnerName(false, [Entry("in_path", VStr("/data"))], isDir) == Ok("single")
    ensures RunnerName(false, [Entry("in_path", VStr("x/mzmine_log.txt"))], isDir) == Err(TypeError)
  {
    assert Lookup([Entry("in_path", VStr("/data"))], "in_path") == Some(VStr("/data"));
    var s := "x/mzmine_log.txt";
    assert Lookup([Entry("in_path", VStr(s))], "in_path") == Some(VStr(s));
    assert OccursAt(s, PatternKeys[0], 2);
  }

  /** GNPS `distribute_scheduled(**scheduled_io)` as written: its own runner choice reads
      `in_path`; it then calls the base distribution with `correct_runner=` and the same
      keyword arguments, which raises `TypeError` when they already hold `correct_runner`
      (as every call from `run` does); otherwise the base distribution reads `in_paths`
      before it looks at the choice (`KeyError` when absent). */
  function DistributeAsWritten(nested: bool, scheduledIo: seq<Entry>, isDir: Value -> bool): (r: Result<string>)
    ensures r.Ok? ==> "in_paths" in Keys(scheduledIo) && "correct_runner" !in Keys(scheduledIo)
    ensures r.Ok? ==> nested || "in_path" in Keys(scheduledIo)
    ensures r.Ok? ==> r == RunnerName(nested, scheduledIo, isDir)
    ensures RunnerName(nested, scheduledIo, isDir).Ok? && "correct_runner" in Keys(scheduledIo) ==> r == Err(TypeError)
  {
    match RunnerName(nested, scheduledIo, isDir)
    case Err(e) => Err(e)
    case Ok(name) =>
      if "correct_runner" in Keys(scheduledIo) then Err(TypeError)
      else if "in_paths" !in Keys(scheduledIo) then Err(KeyError)
      else Ok(name)
  }

  /** The keyword arguments `run` hands to `distribute_scheduled` for a combination:
      `correct_runner` (the combination's run style) and `kwargs`, then the combination's
      own entries. */
  function FromRun(io: seq<Entry>, kwargs: Value): (r: seq<Entry>)
    ensures "correct_runner" in Keys(r)
    ensures forall k :: k != "correct_runner" && k != "kwargs" ==> Lookup(r, k) == Lookup(io, k)
  {
    var second := [Entry("kwargs", kwargs)] + io;
    var r := [Entry("correct_runner", Lookup(io, "run_style").GetOr(VNone))] + second;
    assert r[1..] == second && second[1..] == io;
    assert Keys(r)[0] == "correct_runner";
    r
  }

  /** As written, no combination `run` hands to the GNPS step is distributed: the lookup of
      `in_path` fails, `isdir` rejects an input, or the base call receives `correct_runner`
      twice. */
  lemma RunDistributionFails(nested: bool, io: seq<Entry>, kwargs: Value, isDir: Value -> bool)
    ensures DistributeAsWritten(nested, FromRun(io, kwargs), isDir).Err?
  {
  }

  /** The distribution the GNPS step means: its own runner choice replaces whatever
      `correct_runner` it was handed, and the base distribution runs that choice; the
      combinations are keyed by `in_path`. */
  function Distribute(nested: bool, scheduledIo: seq<Entry>, isDir: Value -> bool): (r: Result<string>)
    ensures r.Ok? ==> r.value in {"nested", "directory", "single"}
    ensures nested ==> r == Ok("nested")
  {
    RunnerName(nested, scheduledIo, isDir)
  }

  /** The run style and keyword arguments `run` passes do not change the intended
      distribution of a combination: only its own inputs decide. */
  lemma DistributeFromRun(nested: bool, io: seq<Entry>, kwargs: Value, isDir: Value -> bool)
    ensures Distribute(nested, FromRun(io, kwargs), isDir) == Distribute(nested, io, isDir)
  {
  }

  /** A combination keyed the way the GNPS runs take it (`in_path`, `out_path`) cannot be
      distributed as written, while the runner choice alone names its run. */
  lemma InPathKeyError(isDir: Value -> bool)
    ensures var io := [Entry("in_path", VStr("/data")), Entry("out_path", VStr("/out"))];
            DistributeAsWritten(false, io, isDir) == Err(KeyError) && RunnerName(false, io, isDir) == Ok("single")
  {
    var io := [Entry("in_path", VStr("/data")), Entry("out_path", VStr("/out"))];
    assert Keys(io) == ["in_path", "out_path"];
    assert Lookup(io, "in_path") == Some(VStr("/data"));
  }

  /** Over distinct keys, some optional is truthy with a property exactly when the
      dictionary holds a truthy value with it under one of the keys. */
  lemma OptionalsAnyTruthy(entries: seq<Entry>, keys: seq<string>, p: Value -> bool)
    requires forall i, j :: 0 <= i < j < |keys| ==> keys[i] != keys[j]
    ensures AnyTruthy(PipeSteps.Values(PipeSteps.Optionals(entries, keys)), p) <==>
              exists i :: 0 <= i < |keys| && Truthy(Lookup(entries, keys[i]).GetOr(VNone))
                                          && p(Lookup(entries, keys[i]).GetOr(VNone))
  {
    var values := PipeSteps.Values(PipeSteps.Optionals(entries, keys));
    PipeSteps.OptionalsDistinctKeys(entries, keys);
    if exists i :: 0 <= i < |keys| && Truthy(Lookup(entries, keys[i]).GetOr(VNone))
                                   && p(Lookup(entries, keys[i]).GetOr(VNone)) {
      var i :| 0 <= i < |keys| && Truthy(Lookup(entries, keys[i]).GetOr(VNone))
                               && p(Lookup(entries, keys[i]).GetOr(VNone));
      assert Truthy(values[i]) && p(values[i]);
    }
  }

  /** Whether a truthy input under a pattern key is not a path. */
  predicate NonPathInput(entries: seq<Entry>) {
    exists i :: 0 <= i < |PatternKeys| && Truthy(Lookup(entries, PatternKeys[i]).GetOr(VNone))
                                       && PipeSteps.NotPathLike(Lookup(entries, PatternKeys[i]).GetOr(VNone))
  }

  /** Whether a truthy input under a pattern key is a directory. */
  predicate DirectoryInput(entries: seq<Entry>, isDir: Value -> bool) {
    exists i :: 0 <= i < |PatternKeys| && Truthy(Lookup(entries, PatternKeys[i]).GetOr(VNone))
                                       && isDir(Lookup(entries, PatternKeys[i]).GetOr(VNone))
  }

  /** For a flat step with a dict of input paths: `TypeError` exactly when a truthy input
      under a pattern key is not a path; otherwise a directory run exactly when one of them
      is a directory, and a single run else. */
  lemma RunnerNameDirectory(scheduledIo: seq<Entry>, entries: seq<Entry>, isDir: Value -> bool)
    requires Lookup(scheduledIo, "in_path") == Some(VDict(entries))
    ensures RunnerName(false, scheduledIo, isDir) == Err(TypeError) <==> NonPathInput(entries)
    ensures RunnerName(false, scheduledIo, isDir) == Ok("directory") <==>
              !NonPathInput(entries) && DirectoryInput(entries, isDir)
    ensures RunnerName(false, scheduledIo, isDir) == Ok("single") <==>
              !NonPathInput(entries) && !DirectoryInput(entries, isDir)
  {
    PatternKeysDistinct();
    var values := PipeSteps.Values(PipeSteps.Optionals(entries, PatternKeys));
    OptionalsAnyTruthy(entries, PatternKeys, PipeSteps.NotPathLike);
    OptionalsAnyTruthy(entries, PatternKeys, isDir);
    assert NonPathInput(entries) <==> AnyTruthy(values, PipeSteps.NotPathLike);
    assert DirectoryInput(entries, isDir) <==> AnyTruthy(values, isDir);
    assert RunnerName(false, scheduledIo, isDir) == RunnerChoice(false, Some(VDict(entries)), isDir);
  }

  // ---------------------------------------------------------------------------------------
  // run_directory and run_single

  /** `d.pop(key)` on entries: the entry under the key is dropped, the rest keep their
      order. */
  function Pop(es: seq<Entry>, key: string): (r: seq<Entry>)
    ensures forall other :: Lookup(r, other) == if other == key then None else Lookup(es, other)
    decreases |es|
  {
    if es == [] then []
    else if es[0].key == key then Pop(es[1..], key)
    else
      var rest := Pop(es[1..], key);
      KeysCons(es[0], rest);
      [es[0]] + rest
  }

  /** The input paths after the special case for `"standard"`: each pattern key not present
      receives the standard path, then `"standard"` is removed. */
  function Expanded(inPath: seq<Entry>): seq<Entry> {
    if "standard" in Keys(inPath) then Pop(PipeSteps.FillStandards(inPath, PatternKeys, "standard"), "standard")
    else inPath
  }

  /** After the special case, every pattern key is present (with its own path or the standard
      one), `"standard"` is gone, and every other key keeps its path. */
  lemma ExpandedLookup(inPath: seq<Entry>, key: string)
    requires "standard" in Keys(inPath)
    ensures Lookup(Expanded(inPath), key) ==
              if key == "standard" then None
              else if key in Keys(inPath) then Lookup(inPath, key)
              else if key in PatternKeys then Lookup(inPath, "standard")
              else None
  {
    PipeSteps.FillStandardsPresent(inPath, PatternKeys, "standard", key);
  }

  /** The loop of the special case, writing into the input dict in place. */
  method ExpandStandard(inPath: seq<Entry>) returns (r: seq<Entry>)
    ensures r == Expanded(inPath)
  {
    r := inPath;
    if "standard" !in Keys(inPath) {
      return;
    }
    var standard := Lookup(inPath, "standard").value;
    var i := 0;
    while i < |PatternKeys|
      invariant 0 <= i <= |PatternKeys|
      invariant PipeSteps.FillFrom(r, PatternKeys[i..], standard) == PipeSteps.FillFrom(inPath, PatternKeys, standard)
    {
      Sequences.DropNext(PatternKeys, i);
      if PatternKeys[i] !in Keys(r) {
        r := Put(r, PatternKeys[i], standard);
      }
      i := i + 1;
    }
    r := Pop(r, "standard");
  }

  /** What one input entry contributes: a file path itself, or the path of the first
      directory entry its pattern accepts. */
  function Found(e: Entry, disk: Analysis.Disk, matches: (string, string) -> bool): Option<Value> {
    if !e.value.VStr? then None
    else
      var path := e.value.s;
      if disk.isFile(path) then Some(VStr(path))
      else match disk.listing(path)
        case None => None
        case Some(entries) =>
          match Analysis.FirstMatch(entries, e.key, matches)
          case Some(j) => Some(VStr(PathJoin(path, entries[j])))
          case None => None
  }

  /** One turn of the matching loop, with a file path taken as it is. A path that is not a
      string or a directory that cannot be listed raises, and so does a non-empty directory
      under a key the step has no pattern for (`KeyError`). */
  function MatchEntry(matched: seq<Entry>, e: Entry, disk: Analysis.Disk, matches: (string, string) -> bool,
                      patternKeys: seq<string>)
    : (r: Result<seq<Entry>>)
    ensures r.Ok? ==> r.value == match Found(e, disk, matches)
                                 case Some(v) => Put(matched, e.key, v)
                                 case None => matched
  {
    if !e.value.VStr? then Err(TypeError)
    else
      var path := e.value.s;
      if disk.isFile(path) then Ok(Put(matched, e.key, VStr(path)))
      else if disk.listing(path).None? then Err(OSError)
      else if disk.listing(path).value != [] && e.key !in patternKeys then Err(KeyError)
      else Ok(match Found(e, disk, matches)
              case Some(v) => Put(matched, e.key, v)
              case None => matched)
  }

  /** The loop body as written: a file path is recorded, and then listed like a directory,
      which raises for a file. */
  function MatchEntryAsWritten(matched: seq<Entry>, e: Entry, disk: Analysis.Disk, matches: (string, string) -> bool,
                               patternKeys: seq<string>)
    : Result<seq<Entry>>
  {
    if !e.value.VStr? then Err(TypeError)
    else
      var path := e.value.s;
      var kept := if disk.isFile(path) then Put(matched, e.key, VStr(path)) else matched;
      match disk.listing(path)
      case None => Err(OSError)
      case Some(entries) =>
        if entries != [] && e.key !in patternKeys then Err(KeyError)
        else match Analysis.FirstMatch(entries, e.key, matches)
          case Some(j) => Ok(Put(kept, e.key, VStr(PathJoin(path, entries[j]))))
          case None => Ok(kept)
  }

  /** On a filesystem where a file cannot be listed, the loop as written raises for every
      file path, while the corrected turn records it. */
  lemma FileInputRaises(matched: seq<Entry>, key: string, path: string, disk: Analysis.Disk,
                        matches: (string, string) -> bool, patternKeys: seq<string>)
    requires disk.isFile(path) && disk.listing(path).None?
    ensures MatchEntryAsWritten(matched, Entry(key, VStr(path)), disk, matches, patternKeys) == Err(OSError)
    ensures MatchEntry(matched, Entry(key, VStr(path)), disk, matches, patternKeys) == Ok(Put(matched, key, VStr(path)))
  {
  }

  /** The matching loop over all input entries, from an empty result. */
  function MatchAll(es: seq<Entry>, disk: Analysis.Disk, matches: (string, string) -> bool, patternKeys: seq<string>)
    : Result<seq<Entry>>
    decreases |es|
  {
    if es == [] then Ok([])
    else match MatchAll(es[..|es| - 1], disk, matches, patternKeys)
      case Err(e) => Err(e)
      case Ok(m) => MatchEntry(m, es[|es| - 1], disk, matches, patternKeys)
  }

  /** The last turn of the loop sets the last entry's key when that entry contributes and
      leaves every other key as it was. */
  lemma MatchAllLast(es: seq<Entry>, disk: Analysis.Disk, matches: (string, string) -> bool,
                     patternKeys: seq<string>, key: string)
    requires es != [] && MatchAll(es, disk, matches, patternKeys).Ok?
    ensures MatchAll(es[..|es| - 1], disk, matches, patternKeys).Ok?
    ensures Lookup(MatchAll(es, disk, matches, patternKeys).value, key) ==
              var last := es[|es| - 1];
              if key == last.key && Found(last, disk, matches).Some? then Found(last, disk, matches)
              else Lookup(MatchAll(es[..|es| - 1], disk, matches, patternKeys).value, key)
  {
    var last := es[|es| - 1];
    var m := MatchAll(es[..|es| - 1], disk, matches, patternKeys).value;
    var f := Found(last, disk, matches);
    if f.Some? {
      PutLookup(m, last.key, f.value, key);
    }
  }

  /** A key of no input entry is never matched. */
  lemma {:induction false} MatchAllAbsent(es: seq<Entry>, disk: Analysis.Disk, matches: (string, string) -> bool,
                                          patternKeys: seq<string>, key: string)
    requires MatchAll(es, disk, matches, patternKeys).Ok?
    requires forall j :: 0 <= j < |es| ==> es[j].key != key
    ensures Lookup(MatchAll(es, disk, matches, patternKeys).value, key) == None
    decreases |es|
  {
    if es != [] {
      var n := |es| - 1;
      var init := es[..n];
      assert forall j :: 0 <= j < n ==> init[j] == es[j];
      MatchAllLast(es, disk, matches, patternKeys, key);
      MatchAllAbsent(init, disk, matches, patternKeys, key);
    }
  }

  /** When the loop completes, each input key holds what its entry contributes. */
  lemma {:induction false} MatchAllAt(es: seq<Entry>, disk: Analysis.Disk, matches: (string, string) -> bool,
                                      patternKeys: seq<string>, i: nat)
    requires WellFormed(es) && i < |es| && MatchAll(es, disk, matches, patternKeys).Ok?
    ensures Lookup(MatchAll(es, disk, matches, patternKeys).value, es[i].key) == Found(es[i], disk, matches)
    decreases |es|
  {
    var n := |es| - 1;
    var init := es[..n];
    var key := es[i].key;
    MatchAllLast(es, disk, matches, patternKeys, key);
    if i == n {
      assert forall j :: 0 <= j < n ==> init[j] == es[j];
      MatchAllAbsent(init, disk, matches, patternKeys, key);
    } else {
      assert es[i].key != es[n].key;
      assert WellFormed(init) && init[i] == es[i];
      MatchAllAt(init, disk, matches, patternKeys, i);
    }
  }

  /** One turn of the matching loop, with the directory scan as a loop that breaks at the
      first match. */
  method MatchEntryStep(matched: seq<Entry>, e: Entry, disk: Analysis.Disk, matches: (string, string) -> bool,
                        patternKeys: seq<string>)
    returns (r: Result<seq<Entry>>)
    ensures r == MatchEntry(matched, e, disk, matches, patternKeys)
  {
    if !e.value.VStr? {
      return Err(TypeError);
    }
    var path := e.value.s;
    if disk.isFile(path) {
      return Ok(Put(matched, e.key, VStr(path)));
    }
    var listing := disk.listing(path);
    if listing.None? {
      return Err(OSError);
    }
    if listing.value != [] && e.key !in patternKeys {
      return Err(KeyError);
    }
    var found := Analysis.FindEntry(listing.value, e.key, matches);
    assert found == Analysis.FirstMatch(listing.value, e.key, matches);
    if found.Some? {
      r := Ok(Put(matched, e.key, VStr(PathJoin(path, listing.value[found.value]))));
    } else {
      r := Ok(matched);
    }
  }

  /** The matching loop of `run_directory`; the first raise ends it. */
  method MatchInPaths(es: seq<Entry>, disk: Analysis.Disk, matches: (string, string) -> bool, patternKeys: seq<string>)
    returns (r: Result<seq<Entry>>)
    ensures r == MatchAll(es, disk, matches, patternKeys)
  {
    var matched := [];
    var i := 0;
    while i < |es|
      invariant 0 <= i <= |es|
      invariant MatchAll(es[..i], disk, matches, patternKeys) == Ok(matched)
    {
      Sequences.TakeSnoc(es, i);
      var step := MatchEntryStep(matched, es[i], disk, matches, patternKeys);
      if step.Err? {
        assert MatchAll(es[..i + 1], disk, matches, patternKeys) == step;
        MatchAllStops(es, i + 1, disk, matches, patternKeys);
        return step;
      }
      matched := step.value;
      i := i + 1;
    }
    Sequences.TakeAll(es);
    r := Ok(matched);
  }

  /** A raise in the loop is the outcome of the whole loop. */
  lemma {:induction false} MatchAllStops(es: seq<Entry>, n: nat, disk: Analysis.Disk, matches: (string, string) -> bool,
                                         patternKeys: seq<string>)
    requires n <= |es| && MatchAll(es[..n], disk, matches, patternKeys).Err?
    ensures MatchAll(es, disk, matches, patternKeys) == MatchAll(es[..n], disk, matches, patternKeys)
    decreases |es| - n
  {
    if n == |es| {
      Sequences.TakeAll(es);
    } else {
      Sequences.TakeSnoc(es, n);
      MatchAllStops(es, n + 1, disk, matches, patternKeys);
    }
  }

  /** As written, inputs that are all directories contribute nothing, so `run_directory`
      ends in its `ValueError` (or an earlier raise) for every such input. */
  lemma {:induction false} AsWrittenMatchesNothing(es: seq<Entry>, disk: Analysis.Disk,
                                                   search: (string, string) -> bool, patternKeys: seq<string>)
    requires forall i :: 0 <= i < |es| && es[i].value.VStr? ==> !disk.isFile(es[i].value.s)
    requires MatchAll(es, disk, MatchesAsWritten(search), patternKeys).Ok?
    ensures MatchAll(es, disk, MatchesAsWritten(search), patternKeys).value == []
    decreases |es|
  {
    if es != [] {
      var init := es[..|es| - 1];
      var last := es[|es| - 1];
      AsWrittenMatchesNothing(init, disk, search, patternKeys);
      if last.value.VStr? && disk.listing(last.value.s).Some? {
        var entries := disk.listing(last.value.s).value;
        forall j | 0 <= j < |entries| ensures !MatchesAsWritten(search)(last.key, entries[j]) {
          AsWrittenNeverMatches(search, last.key, entries[j]);
        }
      }
      assert Found(last, disk, MatchesAsWritten(search)) == None;
    }
  }

  /** A `feature_ms2` directory holding an `x_fbmn.mgf` file, with a regex engine that finds
      the pattern in that name: the intended scan picks the file, the scan as written does
      not. */
  lemma FeatureMs2Found(disk: Analysis.Disk, search: (string, string) -> bool, dir: string, name: string)
    requires name == "x_fbmn.mgf"
    requires !disk.isFile(dir) && disk.listing(dir) == Some([name])
    requires search(Patterns["feature_ms2"], name)
    ensures Found(Entry("feature_ms2", VStr(dir)), disk, Matches(search)) == Some(VStr(PathJoin(dir, name)))
    ensures Found(Entry("feature_ms2", VStr(dir)), disk, MatchesAsWritten(search)) == None
  {
    MatchesSearchesPattern(search, "feature_ms2", name);
    AsWrittenNeverMatches(search, "feature_ms2", name);
  }

  /** The output file of `run_single`: `fbmn_all_db_annotations.json` inside a directory,
      otherwise the output path itself. */
  function SingleOutPath(outPath: string, isDir: bool): (r: string)
    ensures isDir ==> Basename(r) == "fbmn_all_db_annotations.json" && EndsWith(r, "fbmn_all_db_annotations.json")
    ensures !isDir ==> r == outPath
  {
    if isDir then
      BasenameOfJoin(outPath, "fbmn_all_db_annotations.json");
      PathJoin(outPath, "fbmn_all_db_annotations.json")
    else outPath
  }

  /** The input paths `run_directory` works on as written: `extract_standard` has already
      replaced a dict holding `"standard"` by that entry's value. */
  function DirectoryInputAsWritten(inPathArg: Value): Value {
    PipeSteps.StandardOf(inPathArg, "standard")
  }

  /** As written, a `"standard"` path never reaches the special case: the dict is replaced by
      the path string, and the loop over its items raises. The corrected input keeps the
      dict, and the special case fills every pattern key from it. */
  lemma StandardInputLost(es: seq<Entry>, dir: string)
    requires Lookup(es, "standard") == Some(VStr(dir))
    ensures DirectoryInputAsWritten(VDict(es)) == VStr(dir)
    ensures forall k :: k in PatternKeys && k !in Keys(es) ==> Lookup(Expanded(es), k) == Some(VStr(dir))
  {
    forall k | k in PatternKeys && k !in Keys(es) ensures Lookup(Expanded(es), k) == Some(VStr(dir)) {
      ExpandedLookup(es, k);
    }
  }

  /** `run_directory(in_path, out_path)` up to the hand-over to `run_single`, in its
      corrected reading: the input dict after the `"standard"` special case, a file input
      taken as it is, and every directory scanned with the file type as pattern id; no match raises
      `ValueError`. The output directory is created (a file in its place raises), so
      `run_single` writes `fbmn_all_db_annotations.json` inside it. The result is the matched
      paths and the output file. */
  method RunDirectory(inPathArg: Value, outPathArg: Value, disk: Analysis.Disk, search: (string, string) -> bool)
    returns (r: Result<(seq<Entry>, string)>)
    ensures !inPathArg.VDict? ==> r == Err(AttributeError)
    ensures inPathArg.VDict? ==>
              var m := MatchAll(Expanded(inPathArg.entries), disk, Matches(search), PatternKeys);
              var out := PipeSteps.StandardOf(outPathArg, "standard");
              && (m.Err? ==> r == Err(m.error))
              && (m.Ok? && m.value == [] ==> r == Err(ValueError))
              && (m.Ok? && m.value != [] && !out.VStr? ==> r == Err(TypeError))
              && (m.Ok? && m.value != [] && out.VStr? && disk.isFile(out.s) ==> r == Err(OSError))
              && (m.Ok? && m.value != [] && out.VStr? && !disk.isFile(out.s) ==>
                    r == Ok((m.value, SingleOutPath(out.s, true))))
    ensures r.Ok? ==> Basename(r.value.1) == "fbmn_all_db_annotations.json" && r.value.0 != []
  {
    if !inPathArg.VDict? {
      return Err(AttributeError);
    }
    var out := PipeSteps.StandardOf(outPathArg, "standard");
    var inPath := ExpandStandard(inPathArg.entries);
    var m := MatchInPaths(inPath, disk, Matches(search), PatternKeys);
    if m.Err? {
      return Err(m.error);
    }
    if m.value == [] {
      return Err(ValueError);
    }
    if !out.VStr? {
      return Err(TypeError);
    }
    if disk.isFile(out.s) {
      return Err(OSError);
    }
    r := Ok((m.value, SingleOutPath(out.s, true)));
  }
}
