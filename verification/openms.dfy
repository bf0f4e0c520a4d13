/** File-name handling of the OpenMS helper: which files are experiments, how they are read,
    and how sample names and polarities are derived from file names. */
module OpenMs {
  import opened Wrappers
  import opened Text

  /** `check_ending_experiment`. */
  predicate CheckEndingExperiment(file: string) {
    EndsWith(file, ".mzML") || EndsWith(file, ".MzML") || EndsWith(file, ".mzXML") || EndsWith(file, ".MzXML")
  }

  /** The reader `read_experiment` picks for a path. */
  datatype Reader = MzMLReader | MzXMLReader | TableReader

  /** The ending dispatch of `read_experiment`; any other ending raises `ValueError`. */
  function ReadExperiment(path: string): (r: Result<Reader>)
    ensures r == Ok(MzMLReader) <==> EndsWith(path, ".mzML") || EndsWith(path, ".MzML")
    ensures r == Ok(MzXMLReader) <==> EndsWith(path, ".mzXML") || EndsWith(path, ".MzXML")
    ensures r == Ok(TableReader) <==>
              !CheckEndingExperiment(path) && (EndsWith(path, ".tsv") || EndsWith(path, ".csv") || EndsWith(path, ".txt"))
    ensures r.Err? <==> !CheckEndingExperiment(path) && !EndsWith(path, ".tsv") && !EndsWith(path, ".csv")
                        && !EndsWith(path, ".txt")
    ensures r.Err? ==> r.error == ValueError
  {
    EndingsDisjoint(path);
    if EndsWith(path, ".mzML") || EndsWith(path, ".MzML") then Ok(MzMLReader)
    else if EndsWith(path, ".mzXML") || EndsWith(path, ".MzXML") then Ok(MzXMLReader)
    else if EndsWith(path, ".tsv") || EndsWith(path, ".csv") || EndsWith(path, ".txt") then Ok(TableReader)
    else Err(ValueError)
  }

  /** The dispatch endings are disjoint: a path ending in `.mzXML` does not end in `.mzML`,
      so no path is claimed by two readers. */
  lemma EndingsDisjoint(path: string)
    ensures EndsWith(path, ".mzXML") || EndsWith(path, ".MzXML") ==>
              !EndsWith(path, ".mzML") && !EndsWith(path, ".MzML")
  {
    if EndsWith(path, ".mzXML") || EndsWith(path, ".MzXML") {
      assert path[|path| - 6..][3] == path[|path| - 3] == 'X';
    }
  }

  /** Exactly the experiment endings are read by an mzML or mzXML reader. */
  lemma ReadExperimentAgreesWithCheck(path: string)
    ensures CheckEndingExperiment(path) <==> ReadExperiment(path) in {Ok(MzMLReader), Ok(MzXMLReader)}
    ensures EndsWith(path, ".mzXML") ==> ReadExperiment(path) == Ok(MzXMLReader)
  {
  }

  /** An experiment argument: either a file name, or a loaded experiment carrying the path
      it was loaded from ("" when it has none). */
  datatype Experiment = Name(name: string) | Loaded(loadedPath: string)

  /** All `.`-separated parts but the last, concatenated without separator. */
  function StemOf(name: string): string {
    var parts := Split(name, '.');
    Join(parts[..|parts| - 1], "")
  }

  /** `load_name`; `altName` "" stands for a missing alternative name. */
  function LoadName(experiment: Experiment, altName: string): (r: Result<string>)
    ensures r.Err? <==> experiment.Loaded? && experiment.loadedPath == "" && altName == ""
    ensures r.Err? ==> r.error == ValueError
  {
    match experiment
    case Name(name) => Ok(StemOf(name))
    case Loaded(path) =>
      if path != "" then Ok(StemOf(Basename(path)))
      else if altName != "" then Ok(altName)
      else Err(ValueError)
  }

  /** A name made of dot-free parts loses its last part and its dots: `a.b.mzML` gives `ab`. */
  lemma LoadNameDropsLastPart(parts: seq<string>)
    requires |parts| >= 1
    requires forall k :: 0 <= k < |parts| ==> '.' !in parts[k]
    ensures LoadName(Name(Join(parts, ".")), "") == Ok(Join(parts[..|parts| - 1], ""))
  {
    SplitJoin(parts, '.');
  }

  /** A name without any `.` has the empty stem. */
  lemma LoadNameWithoutDot(name: string)
    requires '.' !in name
    ensures LoadName(Name(name), "") == Ok("")
  {
    SplitWithoutSep(name, '.');
  }

  /** The listing filter of `load_experiments` and `load_names_batch`: the given ending when
      one is given ("" for none), otherwise the experiment endings. */
  predicate Selected(file: string, fileEnding: string) {
    if fileEnding != "" then EndsWith(file, fileEnding) else CheckEndingExperiment(file)
  }

  function SelectFiles(listing: seq<string>, fileEnding: string): (r: seq<string>)
    ensures |r| <= |listing|
    ensures forall f :: f in r <==> f in listing && Selected(f, fileEnding)
  {
    if |listing| == 0 then []
    else (if Selected(listing[0], fileEnding) then [listing[0]] else [])
         + SelectFiles(listing[1..], fileEnding)
  }

  /** `load_experiments` given a directory: the selected entries of its listing, joined to the
      directory, in listing order. Loading the data is file I/O and is not modelled. */
  function LoadExperimentPaths(dir: string, listing: seq<string>, fileEnding: string): (paths: seq<string>)
    ensures |paths| == |SelectFiles(listing, fileEnding)|
    ensures forall i :: 0 <= i < |paths| ==> paths[i] == PathJoin(dir, SelectFiles(listing, fileEnding)[i])
  {
    var files := SelectFiles(listing, fileEnding);
    seq(|files|, i requires 0 <= i < |files| => PathJoin(dir, files[i]))
  }

  /** `load_names_batch` given a directory listing. */
  function LoadNamesInDir(listing: seq<string>, fileEnding: string): (names: seq<string>)
    ensures |names| == |SelectFiles(listing, fileEnding)|
    ensures forall i :: 0 <= i < |names| ==>
              Ok(names[i]) == LoadName(Name(SelectFiles(listing, fileEnding)[i]), "")
  {
    var files := SelectFiles(listing, fileEnding);
    seq(|files|, i requires 0 <= i < |files| => StemOf(files[i]))
  }

  /** The name `load_names_batch` reports for a listing entry is the `load_name` of the
      path `load_experiments` reports for the same entry, as listing entries hold no `/`. */
  lemma NamesMatchPaths(dir: string, listing: seq<string>, fileEnding: string, i: nat)
    requires forall f :: f in listing ==> '/' !in f && f != ""
    requires i < |LoadNamesInDir(listing, fileEnding)|
    ensures i < |LoadExperimentPaths(dir, listing, fileEnding)|
    ensures LoadName(Loaded(LoadExperimentPaths(dir, listing, fileEnding)[i]), "")
            == Ok(LoadNamesInDir(listing, fileEnding)[i])
  {
    var f := SelectFiles(listing, fileEnding)[i];
    assert f in listing;
    BasenameOfJoin(dir, f);
  }

  /** `str(i)` for a natural number. */
  function NatToString(n: nat): (s: string)
    ensures |s| >= 1
  {
    if n < 10 then [DigitChar(n)] else NatToString(n / 10) + [DigitChar(n % 10)]
  }

  /** `str(n)` is the decimal numeral of `n`: digits only, no leading zero unless `n` is 0,
      and reading it back gives `n`. */
  lemma {:induction false} NatToStringDecimal(n: nat)
    ensures var s := NatToString(n);
            && (forall i :: 0 <= i < |s| ==> '0' <= s[i] <= '9')
            && (s[0] == '0' ==> n == 0)
            && DecimalValue(s) == n
    decreases n
  {
    if n >= 10 {
      NatToStringDecimal(n / 10);
      var prefix := NatToString(n / 10);
      var s := NatToString(n);
      assert s == prefix + [DigitChar(n % 10)];
      assert s[..|s| - 1] == prefix;
    }
  }

  /** The number a string of decimal digits denotes, read from the left. */
  function DecimalValue(s: string): nat
    decreases |s|
  {
    if s == [] then 0
    else
      var d := s[|s| - 1] as int - '0' as int;
      DecimalValue(s[..|s| - 1]) * 10 + (if 0 <= d < 10 then d else 0)
  }

  function DigitChar(d: nat): char
    requires d < 10
  {
    ('0' as int + d) as char
  }

  /** `load_names_batch` given a list of experiments: plain names when the first one is a
      name, otherwise each loaded experiment falls back to its position as alternative name.
      An empty list fails on `experiments[0]`. */
  function LoadNamesOfList(experiments: seq<Experiment>): (r: Result<seq<string>>)
    ensures |experiments| == 0 ==> r == Err(IndexError)
    ensures r.Ok? ==> |r.value| == |experiments|
  {
    if |experiments| == 0 then Err(IndexError)
    else LoadNamesFrom(experiments, 0, experiments[0].Name?)
  }

  function LoadNamesFrom(experiments: seq<Experiment>, i: nat, plain: bool): (r: Result<seq<string>>)
    requires i <= |experiments|
    ensures r.Ok? ==> |r.value| == |experiments| - i
    decreases |experiments| - i
  {
    if i == |experiments| then Ok([])
    else
      var first := LoadName(experiments[i], AltName(plain, i));
      var rest := LoadNamesFrom(experiments, i + 1, plain);
      if first.Err? then Err(first.error)
      else if rest.Err? then rest
      else Ok([first.value] + rest.value)
  }

  /** Each loaded name is what `load_name` gives for the experiment at its position. */
  lemma {:induction false} LoadNamesFromAt(experiments: seq<Experiment>, i: nat, plain: bool, k: nat)
    requires i <= |experiments|
    requires LoadNamesFrom(experiments, i, plain).Ok? && k < |experiments| - i
    ensures LoadName(experiments[i + k], AltName(plain, i + k)) == Ok(LoadNamesFrom(experiments, i, plain).value[k])
    decreases k
  {
    LoadNamesFromCons(experiments, i, plain);
    if k > 0 {
      var rest := LoadNamesFrom(experiments, i + 1, plain).value;
      LoadNamesFromAt(experiments, i + 1, plain, k - 1);
      assert LoadNamesFrom(experiments, i, plain).value[k] == rest[k - 1];
    }
  }

  lemma LoadNamesFromCons(experiments: seq<Experiment>, i: nat, plain: bool)
    requires i < |experiments| && LoadNamesFrom(experiments, i, plain).Ok?
    ensures LoadName(experiments[i], AltName(plain, i)).Ok? && LoadNamesFrom(experiments, i + 1, plain).Ok?
    ensures LoadNamesFrom(experiments, i, plain).value
            == [LoadName(experiments[i], AltName(plain, i)).value] + LoadNamesFrom(experiments, i + 1, plain).value
  {
  }

  /** The alternative name `load_names_batch` hands over for position `k`. */
  function AltName(plain: bool, k: nat): string {
    if plain then "" else NatToString(k)
  }

  /** A list of loaded experiments never fails: every one has at least its position. */
  lemma LoadedListNeverFails(experiments: seq<Experiment>)
    requires |experiments| >= 1 && experiments[0].Loaded?
    ensures LoadNamesOfList(experiments).Ok?
  {
    LoadedFromNeverFails(experiments, 0);
  }

  lemma {:induction false} LoadedFromNeverFails(experiments: seq<Experiment>, i: nat)
    requires i <= |experiments|
    ensures LoadNamesFrom(experiments, i, false).Ok?
    decreases |experiments| - i
  {
    if i < |experiments| {
      LoadedFromNeverFails(experiments, i + 1);
    }
  }

  /** The polarity code the last `_`-part of a name stands for. */
  function PolarityOf(tag: string): Option<int> {
    if tag == "pos" then Some(1) else if tag == "neg" then Some(-1) else None
  }

  /** Sample and polarity of one name in `load_experiments_df`: the sample is the list of
      `_`-parts without the last; the polarity comes from the last part. */
  function SampleAndPolarity(name: string): (r: (seq<string>, Option<int>))
    ensures |r.0| == |Split(name, '_')| - 1
    ensures r.0 == Split(name, '_')[..|r.0|]
  {
    var parts := Split(name, '_');
    (parts[..|parts| - 1], PolarityOf(parts[|parts| - 1]))
  }

  /** A name written as sample parts followed by a polarity tag parses back to them. */
  lemma SampleAndPolarityRoundTrip(sample: seq<string>, tag: string)
    requires forall k :: 0 <= k < |sample| ==> '_' !in sample[k]
    requires '_' !in tag
    ensures SampleAndPolarity(Join(sample + [tag], "_")) == (sample, PolarityOf(tag))
  {
    var parts := sample + [tag];
    assert forall k :: 0 <= k < |parts| ==> '_' !in parts[k];
    SplitJoin(parts, '_');
    assert parts[..|parts| - 1] == sample;
  }
}
