/** The file discovery of the older analysis and summary steps: a directory walk in which
    every file is offered to a chain of slots (`if ... elif ...`), each slot taking the file
    when it is still empty and the file passes its test. */
module SlotSearch {
  import opened Wrappers
  import opened Text
  import Sequences

  /** The test of one slot: an exact file name, or a file-name suffix. */
  datatype Test = Exact(name: string) | Suffix(suffix: string)

  predicate Matches(t: Test, file: string) {
    match t
    case Exact(name) => file == name
    case Suffix(suffix) => EndsWith(file, suffix)
  }

  /** An `os.walk` listing: each directory reached, with the files directly in it. */
  type Walk = seq<(string, seq<string>)>

  /** The files of one directory, each with its root. */
  function Pairs(root: string, files: seq<string>): (r: seq<(string, string)>)
    ensures |r| == |files| && forall i :: 0 <= i < |files| ==> r[i] == (root, files[i])
  {
    seq(|files|, i requires 0 <= i < |files| => (root, files[i]))
  }

  /** Every file of the walk, in walk order. */
  function Files(walk: Walk): seq<(string, string)>
  {
    if walk == [] then []
    else Files(walk[..|walk| - 1]) + Pairs(walk[|walk| - 1].0, walk[|walk| - 1].1)
  }

  /** The first slot from `j` on that is empty and whose test the file passes: the branch of
      the `elif` chain that is taken. */
  function FirstOpen(tests: seq<Test>, slots: seq<Option<string>>, file: string, j: nat): (r: Option<nat>)
    requires |slots| == |tests| && j <= |tests|
    ensures r.Some? ==> j <= r.value < |tests| && !Given(slots[r.value]) && Matches(tests[r.value], file)
    ensures r.Some? ==> forall k :: j <= k < r.value ==> Given(slots[k]) || !Matches(tests[k], file)
    ensures r.None? ==> forall k :: j <= k < |tests| ==> Given(slots[k]) || !Matches(tests[k], file)
    decreases |tests| - j
  {
    if j == |tests| then None
    else if !Given(slots[j]) && Matches(tests[j], file) then Some(j)
    else FirstOpen(tests, slots, file, j + 1)
  }

  /** One file offered to the chain: the branch taken stores `join(root, file)`. */
  function Place(tests: seq<Test>, slots: seq<Option<string>>, found: (string, string)): (r: seq<Option<string>>)
    requires |slots| == |tests|
    ensures |r| == |slots|
  {
    match FirstOpen(tests, slots, found.1, 0)
    case Some(j) => slots[j := Some(PathJoin(found.0, found.1))]
    case None => slots
  }

  /** The slots after the files so far were offered in order. */
  function Fill(tests: seq<Test>, slots: seq<Option<string>>, found: seq<(string, string)>): (r: seq<Option<string>>)
    requires |slots| == |tests|
    ensures |r| == |slots|
  {
    if found == [] then slots
    else Place(tests, Fill(tests, slots, found[..|found| - 1]), found[|found| - 1])
  }

  /** Each file fills at most one slot, and only an empty one, and a filled slot is never
      replaced. */
  lemma PlaceChangesOne(tests: seq<Test>, slots: seq<Option<string>>, found: (string, string), j: nat, k: nat)
    requires |slots| == |tests| && j < |slots| && k < |slots|
    ensures Given(slots[j]) ==> Place(tests, slots, found)[j] == slots[j]
    ensures Place(tests, slots, found)[j] != slots[j] && Place(tests, slots, found)[k] != slots[k] ==> j == k
  {
  }

  /** A slot filled before the search, or during it, keeps its path to the end. */
  lemma {:induction false} FillKeepsFilled(tests: seq<Test>, slots: seq<Option<string>>, found: seq<(string, string)>, j: nat)
    requires |slots| == |tests| && j < |slots| && Given(slots[j])
    ensures Fill(tests, slots, found)[j] == slots[j]
  {
    if found != [] {
      FillKeepsFilled(tests, slots, found[..|found| - 1], j);
      PlaceChangesOne(tests, Fill(tests, slots, found[..|found| - 1]), found[|found| - 1], j, j);
    }
  }

  /** The position of the first file the test accepts. */
  function FirstFound(t: Test, found: seq<(string, string)>): (r: Option<nat>)
    ensures r.Some? ==> r.value < |found| && Matches(t, found[r.value].1)
                        && forall i :: 0 <= i < r.value ==> !Matches(t, found[i].1)
    ensures r.None? ==> forall i :: 0 <= i < |found| ==> !Matches(t, found[i].1)
  {
    if found == [] then None
    else
      var prev := FirstFound(t, found[..|found| - 1]);
      if prev.Some? then Some(prev.value)
      else if Matches(t, found[|found| - 1].1) then Some(|found| - 1)
      else None
  }

  /** No file passes two of the tests. */
  ghost predicate Disjoint(tests: seq<Test>) {
    forall a, b, f :: 0 <= a < b < |tests| && Matches(tests[a], f) ==> !Matches(tests[b], f)
  }

  /** A file a test accepts has a name. */
  lemma MatchedNonEmpty(t: Test, file: string)
    requires NonEmptyTest(t) && Matches(t, file)
    ensures file != ""
  {
  }

  /** A joined path that ends in a file name is never empty. */
  lemma JoinFilled(root: string, file: string)
    requires file != ""
    ensures Given(Some(PathJoin(root, file)))
  {
  }

  /** With disjoint tests, an empty slot ends up with the first file of the walk that passes
      its test, and stays as it was when there is none. */
  lemma {:induction false} FillFirstMatch(tests: seq<Test>, slots: seq<Option<string>>, found: seq<(string, string)>, j: nat)
    requires |slots| == |tests| && j < |slots| && !Given(slots[j]) && Disjoint(tests)
    requires forall k :: 0 <= k < |tests| ==> NonEmptyTest(tests[k])
    ensures var f := FirstFound(tests[j], found);
            Fill(tests, slots, found)[j]
            == if f.Some? then Some(PathJoin(found[f.value].0, found[f.value].1)) else slots[j]
  {
    if found != [] {
      var init := found[..|found| - 1];
      var last := found[|found| - 1];
      FillFirstMatch(tests, slots, init, j);
      var prev := Fill(tests, slots, init);
      var f := FirstFound(tests[j], init);
      if f.Some? {
        assert init[f.value] == found[f.value];
        MatchedNonEmpty(tests[j], found[f.value].1);
        JoinFilled(found[f.value].0, found[f.value].1);
        PlaceChangesOne(tests, prev, last, j, j);
      }
    }
  }

  /** What the search leaves in one slot: its preset path when that is set, else the path of
      the first file of the walk its test accepts, else the preset unchanged. */
  function SlotOutcome(t: Test, preset: Option<string>, found: seq<(string, string)>): Option<string>
  {
    if Given(preset) then preset
    else match FirstFound(t, found)
      case Some(i) => Some(PathJoin(found[i].0, found[i].1))
      case None => preset
  }

  /** With disjoint tests that accept only names, every slot ends with its outcome. */
  lemma SearchOutcome(tests: seq<Test>, slots: seq<Option<string>>, found: seq<(string, string)>, j: nat)
    requires |slots| == |tests| && j < |tests| && Disjoint(tests)
    requires forall k :: 0 <= k < |tests| ==> NonEmptyTest(tests[k])
    ensures Fill(tests, slots, found)[j] == SlotOutcome(tests[j], slots[j], found)
  {
    if Given(slots[j]) {
      FillKeepsFilled(tests, slots, found, j);
    } else {
      FillFirstMatch(tests, slots, found, j);
    }
  }

  /** The files of a walk prefix extended by one more directory. */
  lemma FilesSnoc(walk: Walk, i: nat)
    requires i < |walk|
    ensures Files(walk[..i + 1]) == Files(walk[..i]) + Pairs(walk[i].0, walk[i].1)
  {
    Sequences.TakeSnoc(walk, i);
  }

  /** Offering the files of `a` and then those of `b` is offering `a + b`. */
  lemma {:induction false} FillAppend(tests: seq<Test>, slots: seq<Option<string>>, a: seq<(string, string)>, b: seq<(string, string)>)
    requires |slots| == |tests|
    ensures Fill(tests, slots, a + b) == Fill(tests, Fill(tests, slots, a), b)
  {
    if b == [] {
      Sequences.AppendEmpty(a);
    } else {
      Sequences.AppendSnoc(a, b);
      FillAppend(tests, slots, a, b[..|b| - 1]);
    }
  }

  lemma PairsSnoc(root: string, files: seq<string>, j: nat)
    requires j < |files|
    ensures Pairs(root, files[..j + 1]) == Pairs(root, files[..j]) + [(root, files[j])]
  {
  }

  /** The inner loop: the files of one directory offered in order. */
  method SearchDirectory(tests: seq<Test>, slots: seq<Option<string>>, root: string, files: seq<string>)
    returns (r: seq<Option<string>>)
    requires |slots| == |tests|
    ensures r == Fill(tests, slots, Pairs(root, files))
  {
    r := slots;
    var j := 0;
    while j < |files|
      invariant 0 <= j <= |files| && |r| == |tests|
      invariant r == Fill(tests, slots, Pairs(root, files[..j]))
    {
      PairsSnoc(root, files, j);
      Sequences.AppendSnoc(Pairs(root, files[..j]), [(root, files[j])]);
      Sequences.AppendEmpty(Pairs(root, files[..j]));
      r := Place(tests, r, (root, files[j]));
      j := j + 1;
    }
    Sequences.TakeAll(files);
  }

  /** The nested loops over the walk and the files of each directory. */
  method Search(tests: seq<Test>, walk: Walk, preset: seq<Option<string>>) returns (slots: seq<Option<string>>)
    requires |preset| == |tests|
    ensures slots == Fill(tests, preset, Files(walk))
  {
    slots := preset;
    var i := 0;
    while i < |walk|
      invariant 0 <= i <= |walk| && |slots| == |tests|
      invariant slots == Fill(tests, preset, Files(walk[..i]))
    {
      slots := SearchDirectory(tests, slots, walk[i].0, walk[i].1);
      FillAppend(tests, preset, Files(walk[..i]), Pairs(walk[i].0, walk[i].1));
      FilesSnoc(walk, i);
      i := i + 1;
    }
    Sequences.TakeAll(walk);
  }

  /** The search over tests no file passes two of: every slot ends with its outcome. */
  method SearchDisjoint(tests: seq<Test>, walk: Walk, preset: seq<Option<string>>) returns (slots: seq<Option<string>>)
    requires |preset| == |tests| && Disjoint(tests)
    requires forall k :: 0 <= k < |tests| ==> NonEmptyTest(tests[k])
    ensures |slots| == |tests|
    ensures forall j :: 0 <= j < |tests| ==> slots[j] == SlotOutcome(tests[j], preset[j], Files(walk))
  {
    slots := Search(tests, walk, preset);
    forall j | 0 <= j < |tests|
      ensures slots[j] == SlotOutcome(tests[j], preset[j], Files(walk))
    {
      SearchOutcome(tests, preset, Files(walk), j);
    }
  }

  /** Two tests no file passes both of. */
  predicate Differ(a: Test, b: Test) {
    match (a, b)
    case (Exact(m), Exact(n)) => m != n
    case (Exact(n), Suffix(s)) => s != "" && n != "" && (|n| < |s| || n[|n| - 1] != s[|s| - 1] || (|s| >= 3 && |n| >= 3 && n[|n| - 3] != s[|s| - 3]))
    case (Suffix(s), Exact(n)) => s != "" && n != "" && (|n| < |s| || n[|n| - 1] != s[|s| - 1] || (|s| >= 3 && |n| >= 3 && n[|n| - 3] != s[|s| - 3]))
    case (Suffix(s), Suffix(t)) => s != "" && t != "" && s[|s| - 1] != t[|t| - 1]
  }

  lemma DifferDisjoint(a: Test, b: Test, f: string)
    requires Differ(a, b)
    ensures !(Matches(a, f) && Matches(b, f))
  {
  }

  /** Tests that differ pairwise are disjoint. */
  lemma PairwiseDisjoint(tests: seq<Test>)
    requires forall a, b :: 0 <= a < b < |tests| ==> Differ(tests[a], tests[b])
    ensures Disjoint(tests)
  {
    forall a, b, f | 0 <= a < b < |tests| && Matches(tests[a], f) ensures !Matches(tests[b], f) {
      DifferDisjoint(tests[a], tests[b], f);
    }
  }

  /** A test that accepts only non-empty names. */
  predicate NonEmptyTest(t: Test) {
    match t
    case Exact(name) => name != ""
    case Suffix(suffix) => suffix != ""
  }
}
