/**
 * The rule that turns a historical batch's severity score into the risk class
 * the risk classifier is trained on.  Fitting the classifier is not modelled.
 */
module RiskLabeling {
  import DeviationEngine

  /** Severity below this is low risk. */
  const ModerateThreshold: real := 10.0
  /** Severity at or above this is high risk. */
  const HighThreshold: real := 20.0

  /** 0 (low), 1 (moderate) or 2 (high) for every severity score. */
  function RiskLevel(score: real): (r: int)
    ensures 0 <= r <= 2
    ensures r == 0 <==> score < ModerateThreshold
    ensures r == 1 <==> ModerateThreshold <= score < HighThreshold
    ensures r == 2 <==> score >= HighThreshold
  {
    if score < ModerateThreshold then 0
    else if score < HighThreshold then 1
    else 2
  }

  /** A higher severity never gets a lower risk class. */
  lemma RiskLevelMonotone(s1: real, s2: real)
    requires s1 <= s2
    ensures RiskLevel(s1) <= RiskLevel(s2)
  {
  }

  /** The risk column: the rule applied to every severity score, row by row. */
  function LabelAll(scores: seq<real>): (r: seq<int>)
    ensures |r| == |scores|
    ensures forall i :: 0 <= i < |r| ==> r[i] == RiskLevel(scores[i])
    decreases |scores|
  {
    if scores == [] then [] else [RiskLevel(scores[0])] + LabelAll(scores[1..])
  }

  /** Every class the rule produces has a proper entry in the dashboard's risk table. */
  lemma LabelsAreKnown(scores: seq<real>)
    ensures forall i :: 0 <= i < |scores| ==>
      DeviationEngine.RiskLabel(LabelAll(scores)[i]) != DeviationEngine.UnknownRisk
  {
  }
}
