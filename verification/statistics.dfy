/** Test selection and p-value star notation of the statistics step. */
module Statistics {

  const PairedT := "Paired-sample t-test"
  const SignedRank := "Wilcoxon signed-rank test"
  const OneSampleT := "One-sample t-test"
  const MatchedPairs := "Wilcoxon matched pairs test"

  /** Normality as the step decides it: the Shapiro-Wilk p-value exceeds 0.05. */
  predicate IsNormal(shapiroP: real) {
    shapiroP > 0.05
  }

  /** `choose_test`, with the Shapiro-Wilk p-value of the data given as an input. */
  function ChooseTest(paired: bool, shapiroP: real): (name: string)
    ensures name in {PairedT, SignedRank, OneSampleT, MatchedPairs}
    ensures IsNormal(shapiroP) <==> name in {PairedT, OneSampleT}
    ensures paired <==> name in {PairedT, SignedRank}
  {
    if paired then
      if IsNormal(shapiroP) then PairedT else SignedRank
    else
      if IsNormal(shapiroP) then OneSampleT else MatchedPairs
  }

  /** The decision table is one-to-one: the chosen name determines both the pairing and the
      normality verdict. */
  lemma ChooseTestDeterminesInputs(paired1: bool, p1: real, paired2: bool, p2: real)
    requires ChooseTest(paired1, p1) == ChooseTest(paired2, p2)
    ensures paired1 == paired2
    ensures IsNormal(p1) == IsNormal(p2)
  {
  }

  /** The number of stars in a notation, "ns" having none. */
  function StarCount(notation: string): nat {
    if notation == "ns" then 0 else |notation|
  }

  /** `p_val_to_star`. */
  function PValToStar(p: real): (notation: string)
    ensures notation in {"****", "***", "**", "*", "ns"}
    ensures notation == "ns" <==> p >= 0.05
    ensures StarCount(notation) == 4 <==> p < 0.0001
    ensures StarCount(notation) >= 3 <==> p < 0.001
    ensures StarCount(notation) >= 2 <==> p < 0.01
  {
    if p < 0.0001 then "****"
    else if p < 0.001 then "***"
    else if p < 0.01 then "**"
    else if p < 0.05 then "*"
    else "ns"
  }

  /** A smaller p-value never gets fewer stars. */
  lemma PValToStarMonotone(p: real, q: real)
    requires p <= q
    ensures StarCount(PValToStar(p)) >= StarCount(PValToStar(q))
  {
  }
}
