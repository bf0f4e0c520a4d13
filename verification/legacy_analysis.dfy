/** The file discovery of the older `Analysis_Runner`: one walk fills seven slots, the
    quantification table and the six annotation tables. */
module LegacyAnalysis {
  import opened Wrappers
  import opened SlotSearch

  /** The slots of `search_files`, in the order of its `elif` chain. */
  const SearchTests: seq<Test> := [
    Suffix("_quant.csv"),
    Exact("canopus_formula_summary.tsv"),
    Exact("canopus_structure_summary.tsv"),
    Exact("denovo_structure_identifications.tsv"),
    Exact("formula_identifications.tsv"),
    Exact("structure_identifications.tsv"),
    Suffix("_gnps_all_db_annotations.json")
  ]

  /** The seven paths `search_files` returns, in its fixed order. */
  datatype SearchResult = SearchResult(
    quantification: Option<string>,
    canopusFormula: Option<string>,
    canopusStructure: Option<string>,
    denovoStructure: Option<string>,
    formula: Option<string>,
    structure: Option<string>,
    gnps: Option<string>)

  lemma SearchTestsDisjoint()
    ensures Disjoint(SearchTests)
    ensures forall k :: 0 <= k < |SearchTests| ==> NonEmptyTest(SearchTests[k])
  {
    PairwiseDisjoint(SearchTests);
  }

  /** `search_files(dir, ...)`: each of the seven results is the preset path when it is set,
      else the first file of the walk passing that slot's test, else the preset (`None`). */
  method SearchFiles(walk: Walk, preset: seq<Option<string>>) returns (r: SearchResult)
    requires |preset| == |SearchTests|
    ensures r.quantification == SlotOutcome(Suffix("_quant.csv"), preset[0], Files(walk))
    ensures r.canopusFormula == SlotOutcome(Exact("canopus_formula_summary.tsv"), preset[1], Files(walk))
    ensures r.canopusStructure == SlotOutcome(Exact("canopus_structure_summary.tsv"), preset[2], Files(walk))
    ensures r.denovoStructure == SlotOutcome(Exact("denovo_structure_identifications.tsv"), preset[3], Files(walk))
    ensures r.formula == SlotOutcome(Exact("formula_identifications.tsv"), preset[4], Files(walk))
    ensures r.structure == SlotOutcome(Exact("structure_identifications.tsv"), preset[5], Files(walk))
    ensures r.gnps == SlotOutcome(Suffix("_gnps_all_db_annotations.json"), preset[6], Files(walk))
  {
    SearchTestsDisjoint();
    var slots := SearchDisjoint(SearchTests, walk, preset);
    r := SearchResult(slots[0], slots[1], slots[2], slots[3], slots[4], slots[5], slots[6]);
  }
}
