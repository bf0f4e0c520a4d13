/** The file discovery of the older `Summary_Runner`: the quantification table and the six
    annotation tables, each the first of its kind met in a directory walk. */
module LegacySummary {
  import opened Wrappers
  import opened SlotSearch

  /** The one slot of `search_quantification_file`. */
  const QuantificationTests: seq<Test> := [Suffix("_quant.csv")]

  /** The slots of `search_annotation_files`, in the order of its `elif` chain. */
  const AnnotationTests: seq<Test> := [
    Exact("canopus_formula_summary.tsv"),
    Exact("canopus_structure_summary.tsv"),
    Exact("denovo_structure_identifications.tsv"),
    Exact("formula_identifications.tsv"),
    Exact("structure_identifications.tsv"),
    Suffix("_gnps_all_db_annotations.json")
  ]


  lemma AnnotationTestsDisjoint()
    ensures Disjoint(AnnotationTests)
    ensures forall k :: 0 <= k < |AnnotationTests| ==> NonEmptyTest(AnnotationTests[k])
  {
    PairwiseDisjoint(AnnotationTests);
  }

  /** `search_quantification_file(dir, quantification_file)`: the preset path when it is set,
      else the first file of the walk ending in `_quant.csv`, else the preset (`None`). */
  method SearchQuantificationFile(walk: Walk, quantificationFile: Option<string>) returns (r: Option<string>)
    ensures Given(quantificationFile) ==> r == quantificationFile
    ensures !Given(quantificationFile) && FirstFound(Suffix("_quant.csv"), Files(walk)).None? ==> r == quantificationFile
    ensures r == SlotOutcome(Suffix("_quant.csv"), quantificationFile, Files(walk))
  {
    PairwiseDisjoint(QuantificationTests);
    var slots := SearchDisjoint(QuantificationTests, walk, [quantificationFile]);
    r := slots[0];
  }

  /** `search_annotation_files(dir, ...)`: a dictionary with exactly the six keys, each
      holding the outcome of its slot. */
  method SearchAnnotationFiles(walk: Walk, preset: seq<Option<string>>) returns (r: map<string, Option<string>>)
    requires |preset| == |AnnotationTests|
    ensures r.Keys == {"canopus_formula_summary_file", "canopus_structure_summary_file",
                       "denovo_structure_identifications_file", "formula_identifications_file",
                       "structure_identifications_file", "gnps_annotations"}
    ensures r["canopus_formula_summary_file"] == SlotOutcome(Exact("canopus_formula_summary.tsv"), preset[0], Files(walk))
    ensures r["canopus_structure_summary_file"] == SlotOutcome(Exact("canopus_structure_summary.tsv"), preset[1], Files(walk))
    ensures r["denovo_structure_identifications_file"] == SlotOutcome(Exact("denovo_structure_identifications.tsv"), preset[2], Files(walk))
    ensures r["formula_identifications_file"] == SlotOutcome(Exact("formula_identifications.tsv"), preset[3], Files(walk))
    ensures r["structure_identifications_file"] == SlotOutcome(Exact("structure_identifications.tsv"), preset[4], Files(walk))
    ensures r["gnps_annotations"] == SlotOutcome(Suffix("_gnps_all_db_annotations.json"), preset[5], Files(walk))
  {
    AnnotationTestsDisjoint();
    var slots := SearchDisjoint(AnnotationTests, walk, preset);
    r := map[
      "canopus_formula_summary_file" := slots[0],
      "canopus_structure_summary_file" := slots[1],
      "denovo_structure_identifications_file" := slots[2],
      "formula_identifications_file" := slots[3],
      "structure_identifications_file" := slots[4],
      "gnps_annotations" := slots[5]
    ];
  }
}
