/**
 Binary decisions of a classifier: the optional threshold override that `test`
 applies to the model's scores, and the label binarization it performs before
 handing labels to the ROC-AUC routine.
 */
module Binary {

  /** A value is a class label or a class decision: 0.0 or 1.0. */
  predicate IsBinary(x: real) {
    x == 0.0 || x == 1.0
  }

  predicate AllBinary(s: seq<real>) {
    forall i :: 0 <= i < |s| ==> IsBinary(s[i])
  }

  /** The decision for one score at a threshold: positive exactly when the score reaches it. */
  function Decide(score: real, threshold: real): real {
    if score >= threshold then 1.0 else 0.0
  }

  /**
   The binary predictions `test` evaluates. A non-negative `newThreshold` replaces the
   model's own decisions by thresholding every score; a negative one (the default -1)
   keeps the model's decisions untouched.
   */
  function Decisions(predBinary: seq<real>, scores: seq<real>, newThreshold: real): (d: seq<real>)
    ensures newThreshold < 0.0 ==> d == predBinary
    ensures newThreshold >= 0.0 ==> |d| == |scores| && AllBinary(d)
    ensures newThreshold >= 0.0 ==>
      forall i :: 0 <= i < |d| ==> (d[i] == 1.0 <==> scores[i] >= newThreshold)
  {
    if newThreshold >= 0.0 then
      seq(|scores|, i requires 0 <= i < |scores| => Decide(scores[i], newThreshold))
    else
      predBinary
  }

  /** A higher threshold never turns a negative decision into a positive one. */
  lemma DecisionsMonotone(predBinary: seq<real>, scores: seq<real>, low: real, high: real, i: int)
    requires 0.0 <= low <= high
    requires 0 <= i < |scores|
    ensures Decisions(predBinary, scores, high)[i] == 1.0 ==> Decisions(predBinary, scores, low)[i] == 1.0
  {
  }

  /** The labels given to the ROC-AUC routine: 1.0 above one half, 0.0 otherwise. */
  function LabelsForAuc(labels: seq<real>): (b: seq<real>)
    ensures |b| == |labels| && AllBinary(b)
    ensures forall i :: 0 <= i < |b| ==> (b[i] == 1.0 <==> labels[i] > 0.5)
  {
    seq(|labels|, i requires 0 <= i < |labels| => if labels[i] > 0.5 then 1.0 else 0.0)
  }

  /** On labels that are already 0.0 or 1.0 the binarization changes nothing. */
  lemma LabelsForAucKeepsBinaryLabels(labels: seq<real>)
    requires AllBinary(labels)
    ensures LabelsForAuc(labels) == labels
  {
  }

  /** Thresholding 0.9, 0.6, 0.3 at 0.7 yields 1, 0, 0 whatever the model decided. */
  lemma ThresholdExample(predBinary: seq<real>)
    ensures Decisions(predBinary, [0.9, 0.6, 0.3], 0.7) == [1.0, 0.0, 0.0]
  {
  }
}
