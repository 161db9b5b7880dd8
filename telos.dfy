/** The Telos engine: choosing among candidate actions by score (si_dcos_kernel.py:333-364). */
module Telos {
  import opened Wrappers
  import opened Metrics

  /**
   * `evaluate_action`: the weighted sum of virtue (50%), purpose (30%) and
   * efficiency (20%). The action's name plays no part.
   */
  function EvaluateAction(actionName: string, rho: RhoMetrics): (score: real)
    ensures 0.0 <= rho.virtue && 0.0 <= rho.purpose && 0.0 <= rho.efficiency ==> 0.0 <= score
    ensures rho.virtue <= 1.0 && rho.purpose <= 1.0 && rho.efficiency <= 1.0 ==> score <= 1.0
  {
    rho.virtue * 0.5 + rho.purpose * 0.3 + rho.efficiency * 0.2
  }

  /**
   * Python's `max` over the score table: scans left to right and replaces
   * the best only on a strictly greater score, so ties go to the earliest.
   */
  function FirstMaximum(scores: seq<real>): (k: nat)
    requires |scores| > 0
    ensures k < |scores|
    ensures forall j :: 0 <= j < |scores| ==> scores[j] <= scores[k]
    ensures forall j :: 0 <= j < k ==> scores[j] < scores[k]
  {
    if |scores| == 1 then 0
    else
      var best := FirstMaximum(scores[..|scores| - 1]);
      if scores[|scores| - 1] > scores[best] then |scores| - 1 else best
  }

  function Scores(candidates: seq<string>, rho: RhoMetrics): (scores: seq<real>)
    ensures |scores| == |candidates|
    ensures forall j :: 0 <= j < |candidates| ==> scores[j] == EvaluateAction(candidates[j], rho)
  {
    seq(|candidates|, j requires 0 <= j < |candidates| => EvaluateAction(candidates[j], rho))
  }

  /**
   * `select_best_action`: no action for an empty list, otherwise a candidate
   * whose score no other candidate beats.
   */
  function SelectBestAction(candidateActions: seq<string>, rho: RhoMetrics): (best: Option<string>)
    ensures best == None <==> candidateActions == []
    ensures best.Some? ==> best.value in candidateActions
    ensures best.Some? ==> forall a :: a in candidateActions ==> EvaluateAction(a, rho) <= EvaluateAction(best.value, rho)
  {
    if candidateActions == [] then None
    else Some(candidateActions[FirstMaximum(Scores(candidateActions, rho))])
  }

  /** Since every candidate scores the same, the engine always picks the first one. */
  lemma SelectsFirstCandidate(candidateActions: seq<string>, rho: RhoMetrics)
    requires candidateActions != []
    ensures SelectBestAction(candidateActions, rho) == Some(candidateActions[0])
  {
  }
}
