/**
 The metrics `test` returns for one evaluation: accuracy, true-positive rate
 (sensitivity), true-negative rate (specificity), precision, recall and the ROC-AUC
 score. The classifier's `predict` is replaced by its two outputs, the binary
 decisions and the scores, and the external ROC-AUC routine by a function parameter.
 */
module Metrics {
  import opened Binary
  import opened Confusion
  import opened Stats

  datatype Report = Report(
    accuracy: real,
    tpRate: real,
    tnRate: real,
    precision: real,
    recall: real,
    auc: real)

  /**
   Sensitivity TP / P. With no positive example the rate falls back to 1.0
   (`test` also prints a warning, which is not modelled).
   */
  function TpRate(c: Counts): (r: real)
    ensures c.p == 0 ==> r == 1.0
    ensures c.tp <= c.p ==> InUnitInterval(r)
    ensures c.p > 0 ==> r * c.p as real == c.tp as real
    ensures c.p > 0 ==> (r == 1.0 <==> c.tp == c.p) && (r == 0.0 <==> c.tp == 0)
  {
    if c.p == 0 then 1.0 else c.tp as real / c.p as real
  }

  /** Specificity TN / N, falling back to 1.0 when there is no negative example. */
  function TnRate(c: Counts): (r: real)
    ensures c.n == 0 ==> r == 1.0
    ensures c.tn <= c.n ==> InUnitInterval(r)
    ensures c.n > 0 ==> r * c.n as real == c.tn as real
    ensures c.n > 0 ==> (r == 1.0 <==> c.tn == c.n) && (r == 0.0 <==> c.tn == 0)
  {
    if c.n == 0 then 1.0 else c.tn as real / c.n as real
  }

  /**
   Precision TP / (TP + FP) with FP = N - TN. When the denominator is zero the
   result is 0.0; for a consistent tally that happens only when TP is zero too.
   */
  function Precision(c: Counts): (r: real)
    ensures c.tp + c.FalsePositives() == 0 ==> r == 0.0
    ensures c.tn <= c.n && c.tp + c.FalsePositives() == 0 ==> c.tp == 0
    ensures c.tn <= c.n ==> InUnitInterval(r)
    ensures c.tp + c.FalsePositives() != 0 ==>
      r * (c.tp + c.FalsePositives()) as real == c.tp as real
    ensures c.tn <= c.n && c.tp + c.FalsePositives() != 0 ==>
      (r == 1.0 <==> c.FalsePositives() == 0) && (r == 0.0 <==> c.tp == 0)
  {
    var denominator := c.tp + c.FalsePositives();
    if denominator != 0 then c.tp as real / denominator as real else 0.0
  }

  /** Accuracy: one minus the fraction of mispredicted pairs. */
  function Accuracy(errors: nat, len: nat): (r: real)
    requires len > 0
    ensures errors <= len ==> InUnitInterval(r)
    ensures r == 1.0 <==> errors == 0
    ensures r * len as real == (len - errors) as real
  {
    1.0 - errors as real / len as real
  }

  /**
   One evaluation: apply the optional threshold override, count over the
   label/prediction pairs, then derive the rates. Recall is the TP rate itself;
   the ROC-AUC routine sees the binarized labels and the raw scores.
   */
  function Test(labels: seq<real>, predBinary: seq<real>, scores: seq<real>,
                newThreshold: real, auc: (seq<real>, seq<real>) -> real): (r: Report)
    requires |labels| == |predBinary| == |scores| > 0
    ensures InUnitInterval(r.accuracy)
    ensures InUnitInterval(r.tpRate) && InUnitInterval(r.tnRate)
    ensures InUnitInterval(r.precision)
    ensures r.recall == r.tpRate
    ensures r.auc == auc(LabelsForAuc(labels), scores)
  {
    var preds := Decisions(predBinary, scores, newThreshold);
    var c := Tally(labels, preds);
    var tpRate := TpRate(c);
    Report(Accuracy(c.errors, |preds|), tpRate, TnRate(c), Precision(c), tpRate,
           auc(LabelsForAuc(labels), scores))
  }

  /**
   The returned metrics in terms of the positions they count: mispredicted pairs,
   positive and negative labels, true positives and true negatives.
   */
  lemma TestCountsPositions(labels: seq<real>, predBinary: seq<real>, scores: seq<real>,
                            newThreshold: real, auc: (seq<real>, seq<real>) -> real)
    requires |labels| == |predBinary| == |scores| > 0
    ensures var preds := Decisions(predBinary, scores, newThreshold);
      var r := Test(labels, predBinary, scores, newThreshold, auc);
      var len, errors := |labels| as real, |MismatchAt(labels, preds)| as real;
      var p, tp := |PositiveAt(labels, preds)| as real, |TruePositiveAt(labels, preds)| as real;
      var n, tn := |NegativeAt(labels, preds)| as real, |TrueNegativeAt(labels, preds)| as real;
      && r.accuracy == 1.0 - errors / len
      && r.tpRate == (if p == 0.0 then 1.0 else tp / p)
      && r.tnRate == (if n == 0.0 then 1.0 else tn / n)
      && r.precision == (if tp + (n - tn) == 0.0 then 0.0 else tp / (tp + (n - tn)))
  {
    var preds := Decisions(predBinary, scores, newThreshold);
    TallyCountsPositions(labels, preds);
  }

  /**
   On binary labels and binary decisions every pair is a true positive, a true
   negative or an error, so accuracy is (TP + TN) / len.
   */
  lemma AccuracyOnBinaryData(labels: seq<real>, predBinary: seq<real>, scores: seq<real>,
                             newThreshold: real, auc: (seq<real>, seq<real>) -> real)
    requires |labels| == |predBinary| == |scores| > 0
    requires AllBinary(labels) && AllBinary(Decisions(predBinary, scores, newThreshold))
    ensures var preds := Decisions(predBinary, scores, newThreshold);
      var correct := |TruePositiveAt(labels, preds)| + |TrueNegativeAt(labels, preds)|;
      Test(labels, predBinary, scores, newThreshold, auc).accuracy
      == correct as real / |labels| as real
  {
    var preds := Decisions(predBinary, scores, newThreshold);
    var c := Tally(labels, preds);
    TallyCountsPositions(labels, preds);
    TallyOnBinaryData(labels, preds);
    assert c.errors + (c.tp + c.tn) == |preds| == |labels|;
    AccuracyAsFraction(c.errors, c.tp + c.tn, |preds|);
  }

  /** When every pair is either an error or correct, accuracy is the correct fraction. */
  lemma AccuracyAsFraction(errors: nat, correct: nat, len: nat)
    requires len > 0 && errors + correct == len
    ensures Accuracy(errors, len) == correct as real / len as real
  {
    var l, e := len as real, errors as real;
    assert correct as real / l == (l - e) / l;
    assert (l - e) / l == l / l - e / l;
  }

  /**
   A non-negative threshold makes the model's own binary decisions irrelevant:
   two models with the same scores get the same report.
   */
  lemma ThresholdOverridesModel(labels: seq<real>, predA: seq<real>, predB: seq<real>,
                                scores: seq<real>, newThreshold: real,
                                auc: (seq<real>, seq<real>) -> real)
    requires |labels| == |predA| == |predB| == |scores| > 0
    requires newThreshold >= 0.0
    ensures Test(labels, predA, scores, newThreshold, auc)
         == Test(labels, predB, scores, newThreshold, auc)
  {
    assert Decisions(predA, scores, newThreshold) == Decisions(predB, scores, newThreshold);
  }

  /** With only positive labels there is no negative example and specificity falls back to 1.0. */
  lemma AllPositiveLabels(labels: seq<real>, predBinary: seq<real>, scores: seq<real>,
                          newThreshold: real, auc: (seq<real>, seq<real>) -> real)
    requires |labels| == |predBinary| == |scores| > 0
    requires forall i :: 0 <= i < |labels| ==> labels[i] == 1.0
    ensures Test(labels, predBinary, scores, newThreshold, auc).tnRate == 1.0
  {
    var preds := Decisions(predBinary, scores, newThreshold);
    TallyCountsPositions(labels, preds);
    assert NegativeAt(labels, preds) == {};
  }

  /**
   On 0/1 labels the rate fallbacks go with a single-class label vector: with no
   positive label every label handed to the ROC-AUC routine is 0, and with no
   negative label every one is 1.
   */
  lemma FallbacksMeanSingleClass(labels: seq<real>, preds: seq<real>)
    requires |labels| == |preds| && AllBinary(labels)
    ensures Tally(labels, preds).p == 0 ==> forall i :: 0 <= i < |labels| ==> LabelsForAuc(labels)[i] == 0.0
    ensures Tally(labels, preds).n == 0 ==> forall i :: 0 <= i < |labels| ==> LabelsForAuc(labels)[i] == 1.0
  {
    TallyCountsPositions(labels, preds);
    if Tally(labels, preds).p == 0 {
      forall i | 0 <= i < |labels|
        ensures LabelsForAuc(labels)[i] == 0.0
      {
        assert i !in PositiveAt(labels, preds);
      }
    }
    if Tally(labels, preds).n == 0 {
      forall i | 0 <= i < |labels|
        ensures LabelsForAuc(labels)[i] == 1.0
      {
        assert i !in NegativeAt(labels, preds);
      }
    }
  }

  /**
   Labels 1, 1, 0, 0 against decisions 1, 0, 0, 0: one error in four, one of two
   positives found, both negatives found, and no false positive.
   */
  lemma ScenarioExample(scores: seq<real>, auc: (seq<real>, seq<real>) -> real)
    requires |scores| == 4
    ensures var r := Test([1.0, 1.0, 0.0, 0.0], [1.0, 0.0, 0.0, 0.0], scores, -1.0, auc);
      r.accuracy == 0.75 && r.tpRate == 0.5 && r.recall == 0.5
      && r.tnRate == 1.0 && r.precision == 1.0
  {
    assert Tally([1.0], [1.0]) == Counts(0, 1, 0, 1, 0);
    assert Tally([1.0, 1.0], [1.0, 0.0]) == Counts(1, 2, 0, 1, 0) by {
      assert [1.0, 1.0][..1] == [1.0] && [1.0, 0.0][..1] == [1.0];
    }
    assert Tally([1.0, 1.0, 0.0], [1.0, 0.0, 0.0]) == Counts(1, 2, 1, 1, 1) by {
      assert [1.0, 1.0, 0.0][..2] == [1.0, 1.0] && [1.0, 0.0, 0.0][..2] == [1.0, 0.0];
    }
    assert Tally([1.0, 1.0, 0.0, 0.0], [1.0, 0.0, 0.0, 0.0]) == Counts(1, 2, 2, 1, 2) by {
      assert [1.0, 1.0, 0.0, 0.0][..3] == [1.0, 1.0, 0.0] && [1.0, 0.0, 0.0, 0.0][..3] == [1.0, 0.0, 0.0];
    }
  }
}
