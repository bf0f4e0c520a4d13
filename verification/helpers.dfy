/** String and file helpers of the older `source` package. */
module Helpers {
  import opened Wrappers
  import opened Text

  /** One bound of a Python slice over a sequence of length `n`: a missing bound takes
      `dflt`, a negative one counts from the end, and the result is clamped to `[0, n]`. */
  function SliceBound(b: Option<int>, n: nat, dflt: nat): (k: nat)
    requires dflt <= n
    ensures k <= n
  {
    match b
    case None => dflt
    case Some(x) => if x < 0 then (if x + n < 0 then 0 else x + n) else (if x > n then n else x)
  }

  /** The positions `s[start:stop]` selects. */
  predicate InSlice(i: int, n: nat, start: Option<int>, stop: Option<int>) {
    SliceBound(start, n, 0) <= i < SliceBound(stop, n, n)
  }

  /** `change_case_str(s, slice(start, stop), conversion)`: the selected characters are
      converted and written back by slice assignment into the character list. Case mapping
      is the ASCII one. */
  method ChangeCaseStr(s: string, start: Option<int>, stop: Option<int>, conversion: string)
    returns (r: Result<string>)
    ensures r.Err? <==> conversion != "upper" && conversion != "lower"
    ensures r.Err? ==> r.error == ValueError
    ensures r.Ok? ==> |r.value| == |s|
    ensures r.Ok? ==> forall i :: 0 <= i < |s| && !InSlice(i, |s|, start, stop) ==> r.value[i] == s[i]
    ensures r.Ok? && conversion == "upper" ==>
      forall i :: 0 <= i < |s| && InSlice(i, |s|, start, stop) ==> r.value[i] == UpperChar(s[i])
    ensures r.Ok? && conversion == "lower" ==>
      forall i :: 0 <= i < |s| && InSlice(i, |s|, start, stop) ==> r.value[i] == LowerChar(s[i])
  {
    var strList := s;
    var lo := SliceBound(start, |s|, 0);
    var hi := SliceBound(stop, |s|, |s|);
    if hi < lo {
      hi := lo;
    }
    var selection := s[lo..hi];
    if conversion == "upper" {
      selection := Upper(selection);
    } else if conversion == "lower" {
      selection := Lower(selection);
    } else {
      return Err(ValueError);
    }
    strList := strList[..lo] + selection + strList[hi..];
    forall i | 0 <= i < |s|
      ensures strList[i] == if !InSlice(i, |s|, start, stop) then s[i]
                            else if conversion == "upper" then UpperChar(s[i]) else LowerChar(s[i])
    {
      SpliceAt(s, lo, hi, selection, i);
      if lo <= i < hi {
        assert s[lo..hi][i - lo] == s[i];
      }
    }
    r := Ok(strList);
  }

  /** Slice assignment `s[lo:hi] = sel` with a replacement of the same length. */
  lemma SpliceAt(s: string, lo: nat, hi: nat, sel: string, i: int)
    requires lo <= hi <= |s| && |sel| == hi - lo && 0 <= i < |s|
    ensures |s[..lo] + sel + s[hi..]| == |s|
    ensures (s[..lo] + sel + s[hi..])[i] == if lo <= i < hi then sel[i - lo] else s[i]
  {
  }

  /** The 1-based line counter of `open_last_line_with_content` stops below this bound. */
  const MaxLookback := 1000000

  /** `open_last_line_with_content`. The file is given by `lastLines`: entry `k` is what
      reading the `(k+1)`-th line from the end yields, and asking for a line beyond the last
      entry fails with `OSError`, which the helper turns into `ValueError`. */
  method OpenLastLineWithContent(lastLines: seq<string>) returns (r: Result<string>)
    ensures r.Ok? ==>
              exists k :: 0 <= k < |lastLines| && k < MaxLookback - 1 && r.value == lastLines[k]
                          && HasContent(lastLines[k]) && forall j :: 0 <= j < k ==> !HasContent(lastLines[j])
    ensures r.Err? ==> r.error == ValueError
    ensures r.Err? ==> forall j :: 0 <= j < |lastLines| && j < MaxLookback - 1 ==> !HasContent(lastLines[j])
  {
    var n := 1;
    while n < MaxLookback
      invariant 1 <= n <= MaxLookback
      invariant n - 1 <= |lastLines|
      invariant forall j :: 0 <= j < n - 1 ==> !HasContent(lastLines[j])
    {
      if n > |lastLines| {
        return Err(ValueError);
      }
      var line := lastLines[n - 1];
      if HasContent(line) {
        return Ok(line);
      }
      n := n + 1;
    }
    r := Err(ValueError);
  }

  /** The directories that exist, and the other paths that exist as files. Paths are
      normalised strings. */
  class Disk {
    var dirs: set<string>
    var files: set<string>

    constructor (dirs: set<string>, files: set<string>)
      ensures this.dirs == dirs && this.files == files
    {
      this.dirs := dirs;
      this.files := files;
    }

    /** `os.mkdir` succeeds when nothing is at the path yet and its parent is a directory. */
    predicate CanCreate(dir: string)
      reads this
    {
      dir !in files && (Dirname(dir) == "" || Dirname(dir) in dirs)
    }

    /** `make_new_dir`: create `dir` when it is not already a directory, reporting whether it
        was created; `os.mkdir` failures surface as `OSError`. */
    method MakeNewDir(dir: string) returns (r: Result<bool>)
      modifies this`dirs
      ensures r.Ok? <==> dir in old(dirs) || old(CanCreate(dir))
      ensures r.Ok? ==> r.value == (dir !in old(dirs)) && dirs == old(dirs) + {dir}
      ensures r.Err? ==> r.error == OSError && dirs == old(dirs)
    {
      if dir !in dirs {
        if !CanCreate(dir) {
          return Err(OSError);
        }
        dirs := dirs + {dir};
        return Ok(true);
      }
      return Ok(false);
    }
  }
}
