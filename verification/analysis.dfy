/** The analysis step of the newer package: which summary columns carry peak quantities and
    in which ionisation mode, the size guard of the z-score, and how a directory run turns its
    input into the paths handed to a single run. */
module Analysis {
  import opened Wrappers
  import opened Text
  import opened StepValues
  import Sequences

  /** A column of the summary table: its name and the name of its dtype. */
  datatype Column = Column(name: string, dtype: string)

  datatype Mode = Positive | Negative | Unknown

  /** The key a mode has in the result dictionary. */
  function ModeName(m: Mode): string {
    match m
    case Positive => "positive"
    case Negative => "negative"
    case Unknown => "unknown"
  }

  /** The three keyword lists of `search_check_peak_info`. */
  datatype Keywords = Keywords(peaks: seq<string>, pos: seq<string>, neg: seq<string>)

  const DefaultKeywords := Keywords(["peak area", "peak height"], ["pos", "+"], ["neg", "-"])

  /** Some keyword occurs in the name, both lower-cased. */
  predicate AnyKeyword(keywords: seq<string>, name: string) {
    exists k :: k in keywords && Contains(Lower(name), Lower(k))
  }

  /** The dtype name says `float` or `int`. */
  predicate Numeric(dtype: string) {
    Contains(dtype, "float") || Contains(dtype, "int")
  }

  /** The mode a column is put in, or None when it is not a numeric peak column. The
      positive keywords are asked first, so a column naming both modes is positive. */
  function Classify(kw: Keywords, c: Column): (r: Option<Mode>)
    ensures r.Some? <==> AnyKeyword(kw.peaks, c.name) && Numeric(c.dtype)
    ensures r == Some(Positive) <==> r.Some? && AnyKeyword(kw.pos, c.name)
    ensures r == Some(Negative) <==> r.Some? && !AnyKeyword(kw.pos, c.name) && AnyKeyword(kw.neg, c.name)
    ensures r == Some(Unknown) <==> r.Some? && !AnyKeyword(kw.pos, c.name) && !AnyKeyword(kw.neg, c.name)
  {
    if !(AnyKeyword(kw.peaks, c.name) && Numeric(c.dtype)) then None
    else if AnyKeyword(kw.pos, c.name) then Some(Positive)
    else if AnyKeyword(kw.neg, c.name) then Some(Negative)
    else Some(Unknown)
  }

  /** The names of the columns put in mode `m`, in column order. */
  function ModeColumns(kw: Keywords, cols: seq<Column>, m: Mode): seq<string>
  {
    if cols == [] then []
    else
      var last := cols[|cols| - 1];
      ModeColumns(kw, cols[..|cols| - 1], m) + (if Classify(kw, last) == Some(m) then [last.name] else [])
  }

  /** The number of columns that are classified at all. */
  function ClassifiedCount(kw: Keywords, cols: seq<Column>): nat
  {
    if cols == [] then 0
    else ClassifiedCount(kw, cols[..|cols| - 1]) + (if Classify(kw, cols[|cols| - 1]).Some? then 1 else 0)
  }

  /** A name is listed under `m` exactly when some column of that name is classified as `m`. */
  lemma {:induction false} ModeColumnsMember(kw: Keywords, cols: seq<Column>, m: Mode, name: string)
    ensures name in ModeColumns(kw, cols, m)
            <==> exists i :: 0 <= i < |cols| && cols[i].name == name && Classify(kw, cols[i]) == Some(m)
  {
    if cols != [] {
      var init := cols[..|cols| - 1];
      ModeColumnsMember(kw, init, m, name);
      if exists i :: 0 <= i < |cols| && cols[i].name == name && Classify(kw, cols[i]) == Some(m) {
        var i :| 0 <= i < |cols| && cols[i].name == name && Classify(kw, cols[i]) == Some(m);
        if i < |init| {
          assert init[i] == cols[i];
        }
      }
      if exists i :: 0 <= i < |init| && init[i].name == name && Classify(kw, init[i]) == Some(m) {
        var i :| 0 <= i < |init| && init[i].name == name && Classify(kw, init[i]) == Some(m);
        assert cols[i] == init[i];
      }
    }
  }

  /** Every classified column is listed in exactly one mode: the three lists together are as
      long as the number of classified columns. */
  lemma {:induction false} ModeColumnsPartition(kw: Keywords, cols: seq<Column>)
    ensures |ModeColumns(kw, cols, Positive)| + |ModeColumns(kw, cols, Negative)| + |ModeColumns(kw, cols, Unknown)|
            == ClassifiedCount(kw, cols)
  {
    if cols != [] {
      ModeColumnsPartition(kw, cols[..|cols| - 1]);
    }
  }

  /** A mode with its columns, or nothing when it has none: the dictionary comprehension that
      drops the empty modes. */
  function Group(m: Mode, columns: seq<string>): seq<(Mode, seq<string>)> {
    if columns == [] then [] else [(m, columns)]
  }

  /** What `search_check_peak_info` returns: the non-empty modes in the order positive,
      negative, unknown. */
  function PeakColumns(kw: Keywords, cols: seq<Column>): seq<(Mode, seq<string>)> {
    Group(Positive, ModeColumns(kw, cols, Positive)) + Group(Negative, ModeColumns(kw, cols, Negative))
    + Group(Unknown, ModeColumns(kw, cols, Unknown))
  }

  /** The position of a mode in the result dictionary. */
  function Rank(m: Mode): nat {
    match m
    case Positive => 0
    case Negative => 1
    case Unknown => 2
  }

  /** The entry of mode `m` in a result, if any. */
  function GroupOf(groups: seq<(Mode, seq<string>)>, m: Mode): Option<seq<string>>
  {
    if groups == [] then None
    else if groups[0].0 == m then Some(groups[0].1)
    else GroupOf(groups[1..], m)
  }

  /** Looking up in a concatenation asks the first part first. */
  lemma {:induction false} GroupOfAppend(a: seq<(Mode, seq<string>)>, b: seq<(Mode, seq<string>)>, m: Mode)
    ensures GroupOf(a + b, m) == if GroupOf(a, m).Some? then GroupOf(a, m) else GroupOf(b, m)
  {
    if a != [] {
      assert (a + b)[0] == a[0];
      if a[0].0 == m {
        assert GroupOf(a + b, m) == Some(a[0].1);
      } else {
        assert (a + b)[1..] == a[1..] + b;
        GroupOfAppend(a[1..], b, m);
      }
    } else {
      Sequences.AppendEmpty(b);
    }
  }

  /** The result lists each mode that has columns, with exactly those columns, and no mode
      without columns. */
  lemma PeakColumnsLookup(kw: Keywords, cols: seq<Column>, m: Mode)
    ensures GroupOf(PeakColumns(kw, cols), m)
            == if ModeColumns(kw, cols, m) == [] then None else Some(ModeColumns(kw, cols, m))
  {
    var p := Group(Positive, ModeColumns(kw, cols, Positive));
    var n := Group(Negative, ModeColumns(kw, cols, Negative));
    var u := Group(Unknown, ModeColumns(kw, cols, Unknown));
    GroupOfAppend(p + n, u, m);
    GroupOfAppend(p, n, m);
  }

  /** Every listed mode has columns, and the modes come in the order positive, negative,
      unknown. */
  lemma PeakColumnsOrdered(kw: Keywords, cols: seq<Column>)
    ensures var r := PeakColumns(kw, cols);
            && |r| <= 3
            && (forall i :: 0 <= i < |r| ==> r[i].1 != [])
            && (forall i, j :: 0 <= i < j < |r| ==> Rank(r[i].0) < Rank(r[j].0))
  {
  }

  /** `search_check_peak_info`: one pass over the columns, appending each classified column
      to the list of its mode, then the dictionary without the empty modes. */
  method SearchCheckPeakInfo(kw: Keywords, cols: seq<Column>) returns (r: seq<(Mode, seq<string>)>)
    ensures r == PeakColumns(kw, cols)
  {
    var positive, negative, unknown := [], [], [];
    var i := 0;
    while i < |cols|
      invariant 0 <= i <= |cols|
      invariant positive == ModeColumns(kw, cols[..i], Positive)
      invariant negative == ModeColumns(kw, cols[..i], Negative)
      invariant unknown == ModeColumns(kw, cols[..i], Unknown)
    {
      Sequences.TakeSnoc(cols, i);
      var c := cols[i];
      if AnyKeyword(kw.peaks, c.name) {
        if Numeric(c.dtype) {
          if AnyKeyword(kw.pos, c.name) {
            positive := positive + [c.name];
          } else if AnyKeyword(kw.neg, c.name) {
            negative := negative + [c.name];
          } else {
            unknown := unknown + [c.name];
          }
        }
      }
      i := i + 1;
    }
    Sequences.TakeAll(cols);
    r := [];
    if positive != [] {
      r := r + [(Positive, positive)];
    }
    if negative != [] {
      r := r + [(Negative, negative)];
    }
    if unknown != [] {
      r := r + [(Unknown, unknown)];
    }
  }

  /** A summary table: the values of each column, by name. */
  type Table = map<string, seq<real>>

  /** `summary[columns]`: the values of the given columns, in the given order. */
  function Select(t: Table, columns: seq<string>): (r: seq<seq<real>>)
    requires forall c :: c in columns ==> c in t
    ensures |r| == |columns| && forall i :: 0 <= i < |columns| ==> r[i] == t[columns[i]]
  {
    seq(|columns|, i requires 0 <= i < |columns| => t[columns[i]])
  }

  /** `analysis[columns] = values`: each given column replaced by its new values. */
  function Assign(t: Table, columns: seq<string>, values: seq<seq<real>>): (r: Table)
    requires |values| == |columns|
    decreases |columns|
  {
    if columns == [] then t
    else Assign(t[columns[0] := values[0]], columns[1..], values[1..])
  }

  /** Writing back what was selected leaves the table as it was. */
  lemma {:induction false} AssignSelect(t: Table, columns: seq<string>)
    requires forall c :: c in columns ==> c in t
    ensures Assign(t, columns, Select(t, columns)) == t
  {
    if columns != [] {
      assert t[columns[0] := t[columns[0]]] == t;
      assert Select(t, columns)[1..] == Select(t, columns[1..]);
      AssignSelect(t, columns[1..]);
    }
  }

  const ZScoreWarning := "Data must contain at least 2 columns with peak information to calculate z-scores between samples. Returning unchanged."

  /** `z_score` for one mode: with fewer than two columns, a warning and the selected columns
      unchanged; otherwise the row-wise z-scores (`standardise`, not modelled). */
  function ZScore(t: Table, columns: seq<string>, standardise: seq<seq<real>> -> seq<seq<real>>)
    : (r: (seq<seq<real>>, Option<string>))
    requires forall c :: c in columns ==> c in t
    ensures |columns| < 2 ==> r.1 == Some(ZScoreWarning) && |r.0| == |columns|
                              && Assign(t, columns, r.0) == t
    ensures |columns| >= 2 ==> r.1 == None
  {
    if |columns| < 2 then
      AssignSelect(t, columns);
      (Select(t, columns), Some(ZScoreWarning))
    else (standardise(Select(t, columns)), None)
  }

  /** `run_directory` wraps an input that is not a dictionary under `summary_paths`. */
  function WrapInput(v: Value): (r: seq<Entry>)
    ensures v.VDict? ==> r == v.entries
    ensures !v.VDict? ==> Keys(r) == ["summary_paths"] && Lookup(r, "summary_paths") == Some(v)
  {
    if v.VDict? then v.entries else [Entry("summary_paths", v)]
  }

  /** The first directory entry the pattern of `fileType` accepts. */
  function FirstMatch(entries: seq<string>, fileType: string, matches: (string, string) -> bool): (r: Option<nat>)
    ensures r.Some? ==> r.value < |entries| && matches(fileType, entries[r.value])
                        && forall j :: 0 <= j < r.value ==> !matches(fileType, entries[j])
    ensures r.None? ==> forall j :: 0 <= j < |entries| ==> !matches(fileType, entries[j])
  {
    if entries == [] then None
    else if matches(fileType, entries[0]) then Some(0)
    else
      var rest := FirstMatch(entries[1..], fileType, matches);
      if rest.Some? then Some(rest.value + 1) else None
  }

  /** The inner loop of `run_directory`: scan the listing, stop at the first match. */
  method FindEntry(entries: seq<string>, fileType: string, matches: (string, string) -> bool) returns (r: Option<nat>)
    ensures r.Some? ==> r.value < |entries| && matches(fileType, entries[r.value])
                        && forall j :: 0 <= j < r.value ==> !matches(fileType, entries[j])
    ensures r.None? ==> forall j :: 0 <= j < |entries| ==> !matches(fileType, entries[j])
  {
    var i := 0;
    while i < |entries|
      invariant 0 <= i <= |entries|
      invariant forall j :: 0 <= j < i ==> !matches(fileType, entries[j])
    {
      if matches(fileType, entries[i]) {
        return Some(i);
      }
      i := i + 1;
    }
    return None;
  }

  /** The filesystem as `run_directory` sees it: which paths are files, and the listing of
      each directory (None for a path that cannot be listed). */
  datatype Disk = Disk(isFile: string -> bool, listing: string -> Option<seq<string>>)

  /** One turn of the outer loop of `run_directory`: either the loop goes on with the
      matched paths so far, or it ends with a result. */
  datatype MatchStep = Continue(matched: seq<Entry>) | Stop(result: Result<seq<Entry>>)

  /** One input entry: a file path is taken as it is and ends the loop; a directory
      contributes its first matching entry. A path that is not a string, or a directory that
      cannot be listed, raises. */
  function MatchOne(e: Entry, matched: seq<Entry>, disk: Disk, matches: (string, string) -> bool): (r: MatchStep)
    ensures r.Continue? && e.key in Keys(matched) ==> Keys(r.matched) == Keys(matched)
    ensures r.Stop? && r.result.Ok? && e.key in Keys(matched) ==> Keys(r.result.value) == Keys(matched)
  {
    if !e.value.VStr? then Stop(Err(TypeError))
    else
      var path := e.value.s;
      if disk.isFile(path) then Stop(Ok(Put(matched, e.key, VStr(path))))
      else if disk.listing(path).None? then Stop(Err(OSError))
      else
        var entries := disk.listing(path).value;
        var m := FirstMatch(entries, e.key, matches);
        Continue(if m.Some? then Put(matched, e.key, VStr(PathJoin(path, entries[m.value]))) else matched)
  }

  /** The outer loop of `run_directory`, from the entry at hand on. */
  function MatchFrom(es: seq<Entry>, matched: seq<Entry>, disk: Disk, matches: (string, string) -> bool)
    : Result<seq<Entry>>
    decreases |es|
  {
    if es == [] then Ok(matched)
    else
      match MatchOne(es[0], matched, disk, matches)
      case Stop(r) => r
      case Continue(next) => MatchFrom(es[1..], next, disk, matches)
  }

  /** The matched paths keep the keys they started with: only values are replaced. */
  lemma {:induction false} MatchFromKeys(es: seq<Entry>, matched: seq<Entry>, disk: Disk, matches: (string, string) -> bool)
    requires forall i :: 0 <= i < |es| ==> es[i].key in Keys(matched)
    ensures MatchFrom(es, matched, disk, matches).Ok? ==> Keys(MatchFrom(es, matched, disk, matches).value) == Keys(matched)
  {
    if es != [] {
      var step := MatchOne(es[0], matched, disk, matches);
      if step.Continue? {
        forall i | 0 <= i < |es[1..]| ensures es[1..][i].key in Keys(step.matched) {
          assert es[1..][i] == es[i + 1];
        }
        MatchFromKeys(es[1..], step.matched, disk, matches);
      }
    }
  }

  /** The body of the outer loop for one entry, with the inner scan of the listing. */
  method MatchEntry(e: Entry, matched: seq<Entry>, disk: Disk, matches: (string, string) -> bool) returns (r: MatchStep)
    ensures r == MatchOne(e, matched, disk, matches)
  {
    if !e.value.VStr? {
      return Stop(Err(TypeError));
    }
    var path := e.value.s;
    if disk.isFile(path) {
      return Stop(Ok(Put(matched, e.key, VStr(path))));
    }
    var listing := disk.listing(path);
    if listing.None? {
      return Stop(Err(OSError));
    }
    var found := FindEntry(listing.value, e.key, matches);
    assert found == FirstMatch(listing.value, e.key, matches);
    if found.Some? {
      r := Continue(Put(matched, e.key, VStr(PathJoin(path, listing.value[found.value]))));
    } else {
      r := Continue(matched);
    }
  }

  /** The matching loop of `run_directory` over the (wrapped) input paths; a file path ends it
      early. */
  method MatchInPaths(inPaths: seq<Entry>, disk: Disk, matches: (string, string) -> bool) returns (r: Result<seq<Entry>>)
    ensures r == MatchFrom(inPaths, inPaths, disk, matches)
  {
    var matched := inPaths;
    var i := 0;
    while i < |inPaths|
      invariant 0 <= i <= |inPaths|
      invariant MatchFrom(inPaths[i..], matched, disk, matches) == MatchFrom(inPaths, inPaths, disk, matches)
    {
      Sequences.DropNext(inPaths, i);
      var step := MatchEntry(inPaths[i], matched, disk, matches);
      if step.Stop? {
        return step.result;
      }
      matched := step.matched;
      i := i + 1;
    }
    return Ok(matched);
  }

  /** What `run_directory` does next. */
  datatype DirectoryRun =
    | SingleRun(inPaths: seq<Entry>, outPath: string)
    | NothingFound
    | Raised(error: Error)

  /** `run_directory(in_paths, out_path)`, from the wrapped input on: the matched paths go to
      a single run when there are any, and otherwise a warning is issued. */
  method RunDirectory(input: Value, outPath: string, disk: Disk, matches: (string, string) -> bool)
    returns (r: DirectoryRun)
    ensures var inPaths := WrapInput(input);
            var m := MatchFrom(inPaths, inPaths, disk, matches);
            && (m.Err? ==> r == Raised(m.error))
            && (m.Ok? && m.value != [] ==> r == SingleRun(m.value, outPath))
            && (m.Ok? && m.value == [] ==> r == NothingFound)
    ensures r.NothingFound? ==> input.VDict? && input.entries == []
    ensures r.SingleRun? ==> Keys(r.inPaths) == Keys(WrapInput(input))
  {
    var inPaths := WrapInput(input);
    var m := MatchInPaths(inPaths, disk, matches);
    if m.Err? {
      return Raised(m.error);
    }
    MatchFromKeys(inPaths, inPaths, disk, matches);
    if m.value != [] {
      r := SingleRun(m.value, outPath);
    } else {
      r := NothingFound;
    }
  }
}
