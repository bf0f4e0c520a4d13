/** The summary step of the newer package: the schedule `main` builds, the fixed order in
    which annotations are added, and the columns each annotation table contributes once it
    is filtered and renamed. The tables themselves (their rows and the merges) are outside
    the model; a table is represented by its column names. */
module Summary {
  import opened Wrappers
  import opened Text
  import opened StepValues
  import Sequences

  /** The input data ids of the step; the first is the quantification table. */
  const InPathIds: seq<string> := [
    "quantification", "formula_identifications", "canopus_formula_summary",
    "structure_identifications", "canopus_structure_summary",
    "denovo_structure_identifications", "gnps_annotations"]

  /** `ordered_annotations`: every input id but the quantification. */
  function OrderedAnnotations(): (r: seq<string>)
    ensures |r| == 6 && r == InPathIds[1..]
  {
    InPathIds[1..]
  }

  /** The annotation order leaves out the quantification and repeats no id. */
  lemma OrderedAnnotationsSpec()
    ensures "quantification" !in OrderedAnnotations()
    ensures Sequences.Distinct(OrderedAnnotations())
    ensures forall k :: k in OrderedAnnotations() ==> k in InPathIds
  {
    var r := OrderedAnnotations();
    assert r[0] == "formula_identifications" && r[1] == "canopus_formula_summary";
    assert r[2] == "structure_identifications" && r[3] == "canopus_structure_summary";
    assert r[4] == "denovo_structure_identifications" && r[5] == "gnps_annotations";
    forall i | 0 <= i < 6 ensures r[i] != "quantification" {
      assert r[i][0] != 'q';
    }
  }

  /** `main`: the schedule of a run; `run_style` is present, as `nested`, exactly when the
      nested flag is set. */
  function MainSchedule(inDirAnnotations: Value, inDirQuantification: Value, outDir: Value, nested: bool)
    : (io: seq<Entry>)
    ensures WellFormed(io)
    ensures Lookup(io, "in_paths")
            == Some(VDict([Entry("quantification", inDirQuantification), Entry("annotations", inDirAnnotations)]))
    ensures Lookup(io, "out_path") == Some(VDict([Entry("summary_paths", outDir)]))
    ensures Lookup(io, "run_style").Some? <==> nested
    ensures nested ==> Lookup(io, "run_style") == Some(VStr("nested"))
  {
    var base := [Entry("in_paths", VDict([Entry("quantification", inDirQuantification), Entry("annotations", inDirAnnotations)])),
                 Entry("out_path", VDict([Entry("summary_paths", outDir)]))];
    assert Keys(base) == ["in_paths", "out_path"];
    var io := if nested then base + [Entry("run_style", VStr("nested"))] else base;
    assert Keys(io) == if nested then ["in_paths", "out_path", "run_style"] else ["in_paths", "out_path"];
    io
  }

  /** `add_quantification`: every column name loses its occurrences of `row `. */
  function QuantificationColumns(columns: seq<string>): seq<string>
  {
    seq(|columns|, i requires 0 <= i < |columns| => Replace(columns[i], "row ", ""))
  }

  /** No column name grows, and there are as many columns as before. */
  lemma QuantificationColumnsShorter(columns: seq<string>)
    ensures |QuantificationColumns(columns)| == |columns|
    ensures forall i :: 0 <= i < |columns| ==> |QuantificationColumns(columns)[i]| <= |columns[i]|
  {
    forall i | 0 <= i < |columns| ensures |QuantificationColumns(columns)[i]| <= |columns[i]| {
      ReplaceShorter(columns[i], "row ", "");
    }
  }

  /** Removing text never lengthens a string. */
  lemma {:induction false} ReplaceShorter(s: string, pat: string, repl: string)
    requires pat != "" && |repl| <= |pat|
    ensures |Replace(s, pat, repl)| <= |s|
    decreases |s|
  {
    if |s| >= |pat| {
      if s[..|pat|] == pat {
        ReplaceShorter(s[|pat|..], pat, repl);
      } else {
        ReplaceShorter(s[1..], pat, repl);
      }
    }
  }

  /** A name that starts with `row ` and holds no other occurrence of it loses just that
      prefix; a name without `row ` is kept. */
  lemma QuantificationColumnName(name: string)
    requires !Contains(name, "row ")
    ensures Replace(name, "row ", "") == name
    ensures Replace("row " + name, "row ", "") == name
  {
    ReplaceAbsent(name, "row ", "");
    assert ("row " + name)[..4] == "row " && ("row " + name)[4..] == name;
  }

  /** Text that holds one character of the pattern nowhere does not contain the pattern. */
  lemma MissingCharNotContained(s: string, pat: string, k: nat)
    requires k < |pat| && pat[k] !in s
    ensures !Contains(s, pat)
  {
  }

  /** One example column name: `row ` and the name. */
  lemma QuantificationColumnOf(name: string, k: nat)
    requires k < 4 && "row "[k] !in name
    ensures Replace("row " + name, "row ", "") == name
  {
    MissingCharNotContained(name, "row ", k);
    QuantificationColumnName(name);
  }

  /** The quantification columns of the example files become `ID`, `m/z` and
      `retention time`. */
  lemma QuantificationColumnsExample(id: string, mz: string, rt: string)
    requires id == "ID" && mz == "m/z" && rt == "retention time"
    ensures QuantificationColumns(["row " + id, "row " + mz, "row " + rt]) == [id, mz, rt]
  {
    QuantificationColumnOf(id, 0);
    QuantificationColumnOf(mz, 0);
    QuantificationColumnOf(rt, 2);
  }

  /** The canopus column filter: the feature id, and the `NPC` or `ClassyFire` columns that are
      not the `all classifications` ones. */
  predicate KeepCanopusColumn(c: string) {
    c == "mappingFeatureId"
    || ((StartsWith(c, "NPC") || StartsWith(c, "ClassyFire")) && !EndsWith(c, "all classifications"))
  }

  /** The kept columns, in their original order. */
  function CanopusColumns(columns: seq<string>): (r: seq<string>)
    ensures |r| <= |columns|
    ensures forall c :: c in r <==> c in columns && KeepCanopusColumn(c)
  {
    if columns == [] then []
    else
      var rest := CanopusColumns(columns[1..]);
      assert forall c :: c in columns <==> c == columns[0] || c in columns[1..];
      if KeepCanopusColumn(columns[0]) then [columns[0]] + rest else rest
  }

  /** The part of a canopus column name after its first `#`: lower-cased, blanks as `_`, and
      `probability` read as `confidence`. */
  function CanopusLabel(name: string): string {
    Replace(Replace(Lower(name), " ", "_"), "probability", "confidence")
  }

  /** The new name of a canopus column holding `#`: `Sirius_{kind}_{tool}_{label}`, where the
      tool is the text before the first `#`. */
  function CanopusName(kind: string, column: string): (r: string)
    requires '#' in column
    ensures var k := Sequences.IndexOf(column, '#');
            && StartsWith(r, "Sirius_" + kind + "_" + column[..k] + "_")
            && '#' !in column[..k]
            && ' ' !in r[|"Sirius_" + kind + "_" + column[..k] + "_"|..]
  {
    var k := Sequences.IndexOf(column, '#');
    var head := "Sirius_" + kind + "_" + column[..k] + "_";
    var suffix := CanopusLabel(column[k + 1..]);
    ReplaceCharGone(Lower(column[k + 1..]), ' ', "_");
    ReplaceKeepsOut(Replace(Lower(column[k + 1..]), " ", "_"), "probability", "confidence", ' ');
    assert (head + suffix)[|head|..] == suffix;
    head + suffix
  }

  /** A blank-free name made of letters other than upper-case ones keeps its label. */
  lemma CanopusLabelPlain(name: string)
    requires forall i :: 0 <= i < |name| ==> name[i] != ' ' && !('A' <= name[i] <= 'Z')
    requires !Contains(name, "probability")
    ensures CanopusLabel(name) == name
  {
    assert Lower(name) == name;
    ReplaceCharAbsent(name, ' ', "_");
    ReplaceAbsent(name, "probability", "confidence");
  }

  /** A column `{tool}#{name}` with no `#` in the tool is renamed after its tool and name. */
  lemma CanopusNameOf(kind: string, tool: string, name: string)
    requires '#' !in tool
    ensures '#' in tool + "#" + name
    ensures CanopusName(kind, tool + "#" + name) == "Sirius_" + kind + "_" + tool + "_" + CanopusLabel(name)
  {
    var c := tool + "#" + name;
    assert c[|tool|] == '#' && c[..|tool|] == tool && c[|tool| + 1..] == name;
    assert Sequences.IndexOf(c, '#') == |tool|;
  }

  /** `NPC#pathway` of the formula summary becomes `Sirius_formula_NPC_pathway`. */
  lemma CanopusNameExample(tool: string, name: string)
    requires tool == "NPC" && name == "pathway"
    ensures '#' in tool + "#" + name
    ensures CanopusName("formula", tool + "#" + name) == "Sirius_formula_" + tool + "_" + name
  {
    CanopusNameOf("formula", tool, name);
    CanopusLabelPlain(name);
  }

  /** The new name of any canopus column: `ID` for the feature id, the `Sirius_` name for one
      with `#`, and the name itself otherwise. */
  function CanopusRename(kind: string, column: string): string {
    if column == "mappingFeatureId" then "ID"
    else if '#' in column then CanopusName(kind, column)
    else column
  }

  /** The rename dictionary of the canopus branches: built in a loop over the columns, then
      the feature id mapped to `ID`. */
  method CanopusRenames(columns: seq<string>, kind: string) returns (rename: map<string, string>)
    ensures forall c :: c in rename <==> c == "mappingFeatureId" || (c in columns && '#' in c)
    ensures forall c :: c in rename ==> rename[c] == CanopusRename(kind, c)
  {
    rename := map[];
    var i := 0;
    while i < |columns|
      invariant 0 <= i <= |columns|
      invariant forall c :: c in rename <==> c in columns[..i] && '#' in c
      invariant forall c :: c in rename ==> rename[c] == CanopusName(kind, c)
    {
      Sequences.TakeSnoc(columns, i);
      var column := columns[i];
      if '#' in column {
        rename := rename[column := CanopusName(kind, column)];
      }
      i := i + 1;
    }
    Sequences.TakeAll(columns);
    rename := rename["mappingFeatureId" := "ID"];
  }

  /** `df.rename(columns=rename)`: a column in the dictionary gets its new name, the others
      keep theirs. */
  function RenameColumns(columns: seq<string>, rename: map<string, string>): (r: seq<string>)
    ensures |r| == |columns|
    ensures forall i :: 0 <= i < |columns| ==> r[i] == if columns[i] in rename then rename[columns[i]] else columns[i]
  {
    seq(|columns|, i requires 0 <= i < |columns| => if columns[i] in rename then rename[columns[i]] else columns[i])
  }

  /** `df[[...]]` followed by a fixed rename: the selected columns must all exist (otherwise
      `KeyError`), and the result has the new names in the given order. */
  function SelectRename(columns: seq<string>, pairs: seq<(string, string)>): (r: Result<seq<string>>)
    ensures r.Ok? <==> forall i :: 0 <= i < |pairs| ==> pairs[i].0 in columns
    ensures r.Err? ==> r.error == KeyError
    ensures r.Ok? ==> |r.value| == |pairs| && forall i :: 0 <= i < |pairs| ==> r.value[i] == pairs[i].1
  {
    if forall i :: 0 <= i < |pairs| ==> pairs[i].0 in columns then
      Ok(seq(|pairs|, i requires 0 <= i < |pairs| => pairs[i].1))
    else Err(KeyError)
  }

  const FormulaPairs: seq<(string, string)> := [
    ("mappingFeatureId", "ID"), ("molecularFormula", "Sirius_formula"),
    ("ZodiacScore", "Sirius_formula_confidence")]

  const StructurePairs: seq<(string, string)> := [
    ("mappingFeatureId", "ID"), ("smiles", "Sirius_structure_smiles"), ("links", "Sirius_structure_links"),
    ("ConfidenceScoreExact", "Sirius_structure_confidence"),
    ("ConfidenceScoreApproximate", "Sirius_approximate_structure_confidence"),
    ("CSI:FingerIDScore", "Sirius_structure_CSI:FingerIDScore")]

  const DenovoPairs: seq<(string, string)> := [
    ("mappingFeatureId", "ID"), ("smiles", "Sirius_denovo_structure_smiles"),
    ("CSI:FingerIDScore", "Sirius_denovo_structure_CSI:FingerIDScore")]

  const GnpsPairs: seq<(string, string)> := [
    ("#Scan#", "ID"), ("Compound_Name", "FBMN_compound_name"), ("MQScore", "FBMN_MQ_score(cosine)"),
    ("MZErrorPPM", "FBMN_m/z_error(ppm)"), ("SharedPeaks", "FBMN_shared_peaks")]

  /** The columns of the filtered and renamed canopus table of one kind. */
  function CanopusTable(kind: string, columns: seq<string>): (r: seq<string>)
    ensures |r| == |CanopusColumns(columns)|
    ensures forall i :: 0 <= i < |r| ==> r[i] == CanopusRename(kind, CanopusColumns(columns)[i])
  {
    var kept := CanopusColumns(columns);
    seq(|kept|, i requires 0 <= i < |kept| => CanopusRename(kind, kept[i]))
  }

  /** The table one annotation file contributes, before the checks on `ID`. */
  function AnnotationTable(fileType: string, columns: seq<string>): Option<Result<seq<string>>>
  {
    if fileType == "formula_identifications" then Some(SelectRename(columns, FormulaPairs))
    else if fileType == "canopus_formula_summary" then Some(Ok(CanopusTable("formula", columns)))
    else if fileType == "structure_identifications" then Some(SelectRename(columns, StructurePairs))
    else if fileType == "canopus_structure_summary" then Some(Ok(CanopusTable("structure", columns)))
    else if fileType == "denovo_structure_identifications" then Some(SelectRename(columns, DenovoPairs))
    else if fileType == "gnps_annotations" then Some(SelectRename(columns, GnpsPairs))
    else None
  }

  /** `add_annotation` as written: the columns the annotation table adds to the summary. A
      table without `ID` fails the `astype`, and a type without a branch reaches the `astype`
      with no table at all. */
  function AddAnnotationAsWritten(fileType: string, columns: seq<string>): (r: Result<seq<string>>)
    ensures AnnotationTable(fileType, columns).None? ==> r == Err(UnboundLocalError)
    ensures r.Ok? ==> "ID" in r.value
  {
    match AnnotationTable(fileType, columns)
    case None => Err(UnboundLocalError)
    case Some(Err(e)) => Err(e)
    case Some(Ok(table)) => if "ID" in table then Ok(table) else Err(KeyError)
  }

  /** `add_annotation` as its warning says it should behave: a type without a branch is
      skipped (None), leaving the summary as it was. */
  function AddAnnotation(fileType: string, columns: seq<string>): (r: Result<Option<seq<string>>>)
    ensures r == Ok(None) <==> AnnotationTable(fileType, columns).None?
    ensures r.Ok? && r.value.Some? ==> "ID" in r.value.value
  {
    match AnnotationTable(fileType, columns)
    case None => Ok(None)
    case Some(Err(e)) => Err(e)
    case Some(Ok(table)) => if "ID" in table then Ok(Some(table)) else Err(KeyError)
  }

  /** For every annotation type the step orders, both readings agree. */
  lemma AddAnnotationAgrees(fileType: string, columns: seq<string>)
    requires fileType in OrderedAnnotations()
    ensures AddAnnotation(fileType, columns).Ok? <==> AddAnnotationAsWritten(fileType, columns).Ok?
    ensures AddAnnotation(fileType, columns).Ok? ==>
              AddAnnotation(fileType, columns).value == Some(AddAnnotationAsWritten(fileType, columns).value)
  {
    var r := OrderedAnnotations();
    assert fileType == r[0] || fileType == r[1] || fileType == r[2] || fileType == r[3] || fileType == r[4] || fileType == r[5];
  }

  /** A direct call with the quantification type raises instead of skipping. */
  lemma AddAnnotationUnknownType(columns: seq<string>)
    ensures AddAnnotationAsWritten("quantification", columns) == Err(UnboundLocalError)
    ensures AddAnnotation("quantification", columns) == Ok(None)
  {
    assert AnnotationTable("quantification", columns).None? by {
      assert "quantification"[0] == 'q';
    }
  }

  /** The formula identifications contribute exactly `ID`, `Sirius_formula` and
      `Sirius_formula_confidence`, and raise `KeyError` when one of the three source columns
      is missing. */
  lemma FormulaIdentificationsColumns(columns: seq<string>)
    ensures "mappingFeatureId" in columns && "molecularFormula" in columns && "ZodiacScore" in columns
            ==> AddAnnotation("formula_identifications", columns) == Ok(Some(["ID", "Sirius_formula", "Sirius_formula_confidence"]))
    ensures !("mappingFeatureId" in columns && "molecularFormula" in columns && "ZodiacScore" in columns)
            ==> AddAnnotation("formula_identifications", columns) == Err(KeyError)
  {
    var r := SelectRename(columns, FormulaPairs);
    if r.Ok? {
      assert FormulaPairs[0].0 in columns && FormulaPairs[1].0 in columns && FormulaPairs[2].0 in columns;
      assert r.value == ["ID", "Sirius_formula", "Sirius_formula_confidence"];
    } else {
      assert !(FormulaPairs[0].0 in columns && FormulaPairs[1].0 in columns && FormulaPairs[2].0 in columns);
    }
  }

  /** A canopus table keeps its feature id as `ID`, and every other column it contributes
      came from an `NPC` or `ClassyFire` column that is not an `all classifications` one. */
  lemma CanopusTableColumns(kind: string, columns: seq<string>)
    ensures "mappingFeatureId" in columns ==> "ID" in CanopusTable(kind, columns)
    ensures forall i :: 0 <= i < |CanopusColumns(columns)| && CanopusColumns(columns)[i] != "mappingFeatureId"
              ==> var c := CanopusColumns(columns)[i];
                  (StartsWith(c, "NPC") || StartsWith(c, "ClassyFire")) && !EndsWith(c, "all classifications")
  {
    var kept := CanopusColumns(columns);
    if "mappingFeatureId" in columns {
      var i :| 0 <= i < |kept| && kept[i] == "mappingFeatureId";
      assert CanopusTable(kind, columns)[i] == "ID";
    }
    forall i | 0 <= i < |kept| && kept[i] != "mappingFeatureId"
      ensures (StartsWith(kept[i], "NPC") || StartsWith(kept[i], "ClassyFire")) && !EndsWith(kept[i], "all classifications")
    {
      assert kept[i] in kept;
    }
  }

  /** `to_list(value)[0]`: the first element of a list (`IndexError` for an empty one), or the
      value itself. */
  function FirstOf(v: Value): Result<Value> {
    if v.VList? then (if v.items == [] then Err(IndexError) else Ok(v.items[0])) else Ok(v)
  }

  /** The dictionary `annotation_files_ordered` after the first `keys` of the order. */
  function OrderedFiles(keys: seq<string>, files: seq<Entry>): Result<seq<Entry>>
  {
    if keys == [] then Ok([])
    else
      var prev := OrderedFiles(keys[..|keys| - 1], files);
      var key := keys[|keys| - 1];
      if prev.Err? || Lookup(files, key).None? then prev
      else
        var first := FirstOf(Lookup(files, key).value);
        if first.Err? then Err(first.error) else Ok(prev.value + [Entry(key, first.value)])
  }

  /** The annotations applied, in order: the ordered ones whose path is truthy. */
  function Applied(ordered: seq<Entry>): seq<Entry>
  {
    if ordered == [] then []
    else Applied(ordered[..|ordered| - 1]) + (if Truthy(ordered[|ordered| - 1].value) then [ordered[|ordered| - 1]] else [])
  }

  /** `add_annotations`: order the given files by `ordered_annotations`, keeping the first
      path of each, then add those whose path is set; the result lists the calls made to
      `add_annotation`, in order. */
  method AddAnnotations(files: seq<Entry>) returns (r: Result<seq<Entry>>)
    ensures OrderedFiles(OrderedAnnotations(), files).Err? ==> r == OrderedFiles(OrderedAnnotations(), files)
    ensures OrderedFiles(OrderedAnnotations(), files).Ok? ==> r == Ok(Applied(OrderedFiles(OrderedAnnotations(), files).value))
  {
    var keys := OrderedAnnotations();
    var ordered: seq<Entry> := [];
    var i := 0;
    while i < |keys|
      invariant 0 <= i <= |keys|
      invariant OrderedFiles(keys[..i], files) == Ok(ordered)
    {
      Sequences.TakeSnoc(keys, i);
      var found := Lookup(files, keys[i]);
      if found.Some? {
        var first := FirstOf(found.value);
        if first.Err? {
          OrderedFilesFailed(keys, i + 1, files);
          return Err(first.error);
        }
        ordered := ordered + [Entry(keys[i], first.value)];
      }
      i := i + 1;
    }
    Sequences.TakeAll(keys);
    var applied: seq<Entry> := [];
    var j := 0;
    while j < |ordered|
      invariant 0 <= j <= |ordered|
      invariant applied == Applied(ordered[..j])
    {
      Sequences.TakeSnoc(ordered, j);
      if Truthy(ordered[j].value) {
        applied := applied + [ordered[j]];
      }
      j := j + 1;
    }
    Sequences.TakeAll(ordered);
    r := Ok(applied);
  }

  /** Once a prefix of the order fails, the whole order does. */
  lemma {:induction false} OrderedFilesFailed(keys: seq<string>, k: nat, files: seq<Entry>)
    requires k <= |keys| && OrderedFiles(keys[..k], files).Err?
    ensures OrderedFiles(keys, files) == OrderedFiles(keys[..k], files)
    decreases |keys| - k
  {
    if k < |keys| {
      Sequences.TakeSnoc(keys, k);
      OrderedFilesFailed(keys, k + 1, files);
    } else {
      Sequences.TakeAll(keys);
    }
  }

  /** The ordered files follow the order of the keys, and each carries the first path given
      for its key. */
  lemma {:induction false} OrderedFilesSpec(keys: seq<string>, files: seq<Entry>)
    requires OrderedFiles(keys, files).Ok?
    ensures var o := OrderedFiles(keys, files).value;
            forall i :: 0 <= i < |o| ==> o[i].key in keys && Lookup(files, o[i].key).Some?
                                         && FirstOf(Lookup(files, o[i].key).value) == Ok(o[i].value)
  {
    if keys != [] {
      OrderedFilesSpec(keys[..|keys| - 1], files);
      Sequences.InSnoc(keys, keys[|keys| - 1]);
      var o := OrderedFiles(keys, files).value;
      forall i | 0 <= i < |o|
        ensures o[i].key in keys
      {
        var prev := OrderedFiles(keys[..|keys| - 1], files).value;
        if i < |prev| {
          Sequences.InSnoc(keys, o[i].key);
        }
      }
    }
  }

  /** Every given annotation of the order is in the ordered files. */
  lemma {:induction false} OrderedFilesComplete(keys: seq<string>, files: seq<Entry>, k: nat)
    requires OrderedFiles(keys, files).Ok? && k < |keys| && Lookup(files, keys[k]).Some?
    ensures FirstOf(Lookup(files, keys[k]).value).Ok?
    ensures exists i :: 0 <= i < |OrderedFiles(keys, files).value|
                        && OrderedFiles(keys, files).value[i] == Entry(keys[k], FirstOf(Lookup(files, keys[k]).value).value)
  {
    var init := keys[..|keys| - 1];
    var prev := OrderedFiles(init, files);
    var key := keys[|keys| - 1];
    assert prev.Ok?;
    var o := OrderedFiles(keys, files).value;
    if k < |init| {
      assert init[k] == keys[k];
      OrderedFilesComplete(init, files, k);
      var i :| 0 <= i < |prev.value| && prev.value[i] == Entry(keys[k], FirstOf(Lookup(files, keys[k]).value).value);
      assert o[i] == prev.value[i];
    } else {
      assert o[|o| - 1] == Entry(keys[k], FirstOf(Lookup(files, keys[k]).value).value);
    }
  }

  /** The applied annotations are exactly the ordered ones whose path is truthy, in order. */
  lemma {:induction false} AppliedSpec(ordered: seq<Entry>, e: Entry)
    ensures e in Applied(ordered) <==> e in ordered && Truthy(e.value)
  {
    if ordered != [] {
      AppliedSpec(ordered[..|ordered| - 1], e);
      Sequences.InSnoc(ordered, e);
      var a := Applied(ordered[..|ordered| - 1]);
      if Truthy(ordered[|ordered| - 1].value) {
        Sequences.InSnoc(a + [ordered[|ordered| - 1]], e);
        assert (a + [ordered[|ordered| - 1]])[..|a|] == a;
      } else {
        Sequences.AppendEmpty(a);
      }
    }
  }

  /** `run_single` writes `summary.tsv` inside a directory output, and otherwise the output
      path itself. */
  function OutFile(outPath: string, isDir: bool): (r: string)
    ensures isDir ==> Basename(r) == "summary.tsv" && EndsWith(r, "summary.tsv")
    ensures !isDir ==> r == outPath
  {
    if isDir then
      BasenameOfJoin(outPath, "summary.tsv");
      PathJoin(outPath, "summary.tsv")
    else outPath
  }
}
