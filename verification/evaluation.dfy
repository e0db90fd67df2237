/**
 The two repetition drivers: `evaluate_multiple_times` (random train/test splits)
 and `evaluate_k_fold` (the folds of a shuffled k-fold split). Each repetition
 trains the classifier and calls `test`; the drivers sum the metrics, keep the
 accuracies (and, for k-fold, the ROC-AUC scores) and the timings, and return the
 averages and population variances. Splitting, training and the clock are outside
 the model: each repetition arrives as a `Run` carrying what `test` needs and the
 two measured durations.
 */
module Evaluation {
  import opened Binary
  import opened Metrics
  import opened Stats

  /** One repetition: the test labels, the model's outputs on the test inputs and the timings. */
  datatype Run = Run(
    labels: seq<real>,
    predBinary: seq<real>,
    scores: seq<real>,
    trainingTime: real,
    testTime: real)
  {
    /** A non-empty test set with one decision and one score per label. */
    predicate WellFormed() {
      |labels| == |predBinary| == |scores| > 0
    }
  }

  predicate AllWellFormed(runs: seq<Run>) {
    forall k :: 0 <= k < |runs| ==> runs[k].WellFormed()
  }

  /** The report `test` returns for every repetition, in order. */
  function Reports(runs: seq<Run>, newThreshold: real, auc: (seq<real>, seq<real>) -> real): (rs: seq<Report>)
    requires AllWellFormed(runs)
    ensures |rs| == |runs|
    ensures forall k :: 0 <= k < |rs| ==>
      InUnitInterval(rs[k].accuracy) && InUnitInterval(rs[k].tpRate) && InUnitInterval(rs[k].tnRate)
    ensures forall k :: 0 <= k < |rs| ==> rs[k].auc == auc(LabelsForAuc(runs[k].labels), runs[k].scores)
  {
    seq(|runs|, k requires 0 <= k < |runs| =>
      Test(runs[k].labels, runs[k].predBinary, runs[k].scores, newThreshold, auc))
  }

  /** The values `f` picks out of every element, in order. */
  function Column<T>(xs: seq<T>, f: T -> real): (c: seq<real>)
    ensures |c| == |xs|
  {
    seq(|xs|, k requires 0 <= k < |xs| => f(xs[k]))
  }

  function AccuracyOf(r: Report): real { r.accuracy }
  function TpRateOf(r: Report): real { r.tpRate }
  function TnRateOf(r: Report): real { r.tnRate }
  function AucOf(r: Report): real { r.auc }
  function TrainingTimeOf(run: Run): real { run.trainingTime }
  function TestTimeOf(run: Run): real { run.testTime }

  function Accuracies(rs: seq<Report>): seq<real> { Column(rs, AccuracyOf) }
  function TpRates(rs: seq<Report>): seq<real> { Column(rs, TpRateOf) }
  function TnRates(rs: seq<Report>): seq<real> { Column(rs, TnRateOf) }
  function Aucs(rs: seq<Report>): seq<real> { Column(rs, AucOf) }
  function TrainingTimes(runs: seq<Run>): seq<real> { Column(runs, TrainingTimeOf) }
  function TestTimes(runs: seq<Run>): seq<real> { Column(runs, TestTimeOf) }

  /** The column of a non-empty sequence is the column of all but the last element, then the last value. */
  lemma ColumnStep<T>(xs: seq<T>, f: T -> real)
    requires |xs| > 0
    ensures Column(xs, f) == Column(xs[..|xs| - 1], f) + [f(xs[|xs| - 1])]
  {
  }

  /** The eight values both drivers return, in the order of their return statements. */
  datatype Summary = Summary(
    avgAccuracy: real,
    avgTrainingTime: real,
    varTrainingTime: real,
    avgTestTime: real,
    varTestTime: real,
    avgTpRate: real,
    avgTnRate: real,
    avgAuc: real)

  /** What the repetition loop leaves behind: the four running sums and the kept lists. */
  datatype Totals = Totals(
    sumAccuracy: real,
    sumTpRate: real,
    sumTnRate: real,
    sumAuc: real,
    accuracyList: seq<real>,
    aucList: seq<real>,
    trainingTimes: seq<real>,
    testTimes: seq<real>)

  /**
   One repetition's contribution: its metrics join the sums and its values are
   appended to the lists, whose earlier entries stay as they were.
   */
  function Add(t: Totals, run: Run, r: Report): (a: Totals)
    ensures a.sumAccuracy - t.sumAccuracy == r.accuracy && a.sumAuc - t.sumAuc == r.auc
    ensures a.sumTpRate - t.sumTpRate == r.tpRate && a.sumTnRate - t.sumTnRate == r.tnRate
    ensures |a.accuracyList| == |t.accuracyList| + 1 && a.accuracyList[..|t.accuracyList|] == t.accuracyList
    ensures a.accuracyList[|t.accuracyList|] == r.accuracy
    ensures |a.aucList| == |t.aucList| + 1 && a.aucList[..|t.aucList|] == t.aucList
    ensures a.aucList[|t.aucList|] == r.auc
    ensures |a.trainingTimes| == |t.trainingTimes| + 1 && a.trainingTimes[..|t.trainingTimes|] == t.trainingTimes
    ensures a.trainingTimes[|t.trainingTimes|] == run.trainingTime
    ensures |a.testTimes| == |t.testTimes| + 1 && a.testTimes[..|t.testTimes|] == t.testTimes
    ensures a.testTimes[|t.testTimes|] == run.testTime
  {
    Totals(
      t.sumAccuracy + r.accuracy,
      t.sumTpRate + r.tpRate,
      t.sumTnRate + r.tnRate,
      t.sumAuc + r.auc,
      t.accuracyList + [r.accuracy],
      t.aucList + [r.auc],
      t.trainingTimes + [run.trainingTime],
      t.testTimes + [run.testTime])
  }

  /** Summing a column adds the last element's value to the sum over the others. */
  lemma SumColumnStep<T>(xs: seq<T>, f: T -> real)
    requires |xs| > 0
    ensures Sum(Column(xs, f)) == Sum(Column(xs[..|xs| - 1], f)) + f(xs[|xs| - 1])
  {
    ColumnStep(xs, f);
    SumAppend(Column(xs[..|xs| - 1], f), f(xs[|xs| - 1]));
  }

  /**
   The totals hold what the loop has seen of the repetitions and their reports:
   the four sums are the sums of the per-repetition metrics, and the lists are the
   per-repetition values in order.
   */
  predicate Accumulates(t: Totals, runs: seq<Run>, rs: seq<Report>)
    requires |runs| == |rs|
  {
    && t.sumAccuracy == Sum(Accuracies(rs))
    && t.sumTpRate == Sum(TpRates(rs)) && t.sumTnRate == Sum(TnRates(rs))
    && t.sumAuc == Sum(Aucs(rs))
    && t.accuracyList == Accuracies(rs) && t.aucList == Aucs(rs)
    && t.trainingTimes == TrainingTimes(runs) && t.testTimes == TestTimes(runs)
  }

  /** Adding the next repetition and its report keeps the totals in step with the prefix seen. */
  lemma AddAccumulates(t: Totals, runs: seq<Run>, rs: seq<Report>, i: int)
    requires |runs| == |rs| && 0 <= i < |runs|
    requires Accumulates(t, runs[..i], rs[..i])
    ensures Accumulates(Add(t, runs[i], rs[i]), runs[..i + 1], rs[..i + 1])
  {
    var runs', rs' := runs[..i + 1], rs[..i + 1];
    assert runs'[..i] == runs[..i] && rs'[..i] == rs[..i];
    SumColumnStep(rs', AccuracyOf);
    SumColumnStep(rs', TpRateOf);
    SumColumnStep(rs', TnRateOf);
    SumColumnStep(rs', AucOf);
    ColumnStep(runs', TrainingTimeOf);
    ColumnStep(runs', TestTimeOf);
  }

  /**
   The repetition loop shared by both drivers: evaluate every run with `test`,
   add its metrics to the running sums and append to the kept lists.
   */
  method RunAll(runs: seq<Run>, newThreshold: real, auc: (seq<real>, seq<real>) -> real)
    returns (t: Totals)
    requires AllWellFormed(runs)
    ensures Accumulates(t, runs, Reports(runs, newThreshold, auc))
  {
    ghost var rs := Reports(runs, newThreshold, auc);
    t := Totals(0.0, 0.0, 0.0, 0.0, [], [], [], []);
    var i := 0;
    while i < |runs|
      invariant 0 <= i <= |runs|
      invariant Accumulates(t, runs[..i], rs[..i])
    {
      var run := runs[i];
      var r := Test(run.labels, run.predBinary, run.scores, newThreshold, auc);
      assert r == rs[i];
      AddAccumulates(t, runs, rs, i);
      t := Add(t, run, r);
      i := i + 1;
    }
    assert runs[..i] == runs && rs[..i] == rs;
  }

  /**
   The summary both drivers compute from the loop's totals: sums divided by the
   number of repetitions, timing averages and variances from the kept lists.
   */
  method Summarize(runs: seq<Run>, rs: seq<Report>, t: Totals) returns (s: Summary)
    requires |runs| == |rs| > 0
    requires Accumulates(t, runs, rs)
    ensures s.avgAccuracy == Mean(Accuracies(rs))
    ensures s.avgTpRate == Mean(TpRates(rs)) && s.avgTnRate == Mean(TnRates(rs))
    ensures s.avgAuc == Mean(Aucs(rs))
    ensures s.avgTrainingTime == Mean(TrainingTimes(runs)) && s.varTrainingTime == PopVariance(TrainingTimes(runs))
    ensures s.avgTestTime == Mean(TestTimes(runs)) && s.varTestTime == PopVariance(TestTimes(runs))
  {
    var n := |runs| as real;
    var avgTrainingTime := Sum(t.trainingTimes) / n;
    var avgTestTime := Sum(t.testTimes) / n;
    s := Summary(
      t.sumAccuracy / n,
      avgTrainingTime, VarianceAround(t.trainingTimes, avgTrainingTime),
      avgTestTime, VarianceAround(t.testTimes, avgTestTime),
      t.sumTpRate / n, t.sumTnRate / n, t.sumAuc / n);
  }

  /** A column whose values all lie in [lo, hi] has its mean in [lo, hi]. */
  lemma MeanOfColumnWithin<T>(xs: seq<T>, f: T -> real, lo: real, hi: real)
    requires |xs| > 0
    requires forall k :: 0 <= k < |xs| ==> lo <= f(xs[k]) <= hi
    ensures lo <= Mean(Column(xs, f)) <= hi
  {
    MeanWithinBounds(Column(xs, f), lo, hi);
  }

  /** The mean accuracy, TP rate and TN rate over the repetitions are rates again. */
  lemma AveragesAreRates(runs: seq<Run>, newThreshold: real, auc: (seq<real>, seq<real>) -> real)
    requires |runs| > 0 && AllWellFormed(runs)
    ensures var rs := Reports(runs, newThreshold, auc);
      && InUnitInterval(Mean(Accuracies(rs)))
      && InUnitInterval(Mean(TpRates(rs))) && InUnitInterval(Mean(TnRates(rs)))
  {
    var rs := Reports(runs, newThreshold, auc);
    assert forall k :: 0 <= k < |rs| ==> InUnitInterval(AccuracyOf(rs[k]));
    assert forall k :: 0 <= k < |rs| ==> InUnitInterval(TpRateOf(rs[k]));
    assert forall k :: 0 <= k < |rs| ==> InUnitInterval(TnRateOf(rs[k]));
    MeanOfColumnWithin(rs, AccuracyOf, 0.0, 1.0);
    MeanOfColumnWithin(rs, TpRateOf, 0.0, 1.0);
    MeanOfColumnWithin(rs, TnRateOf, 0.0, 1.0);
  }

  /** The mean ROC-AUC score is a rate whenever the routine only returns rates. */
  lemma AverageAucIsRate(runs: seq<Run>, newThreshold: real, auc: (seq<real>, seq<real>) -> real)
    requires |runs| > 0 && AllWellFormed(runs)
    requires forall a, b :: InUnitInterval(auc(a, b))
    ensures InUnitInterval(Mean(Aucs(Reports(runs, newThreshold, auc))))
  {
    var rs := Reports(runs, newThreshold, auc);
    assert forall k :: 0 <= k < |rs| ==> InUnitInterval(AucOf(rs[k]));
    MeanOfColumnWithin(rs, AucOf, 0.0, 1.0);
  }

  /**
   `evaluate_multiple_times` over the given repetitions. Besides the eight
   returned values it yields the accuracy variance `evaluate_multiple_times` computes and prints.
   */
  method EvaluateMultipleTimes(runs: seq<Run>, newThreshold: real, auc: (seq<real>, seq<real>) -> real)
    returns (s: Summary, varAccuracy: real)
    requires |runs| > 0 && AllWellFormed(runs)
    ensures var rs := Reports(runs, newThreshold, auc);
      && s.avgAccuracy == Mean(Accuracies(rs))
      && s.avgTpRate == Mean(TpRates(rs)) && s.avgTnRate == Mean(TnRates(rs))
      && s.avgAuc == Mean(Aucs(rs))
      && varAccuracy == PopVariance(Accuracies(rs))
      && (varAccuracy == 0.0 <==> Constant(Accuracies(rs)))
    ensures s.avgTrainingTime == Mean(TrainingTimes(runs)) && s.varTrainingTime == PopVariance(TrainingTimes(runs))
    ensures s.avgTestTime == Mean(TestTimes(runs)) && s.varTestTime == PopVariance(TestTimes(runs))
    ensures InUnitInterval(s.avgAccuracy) && InUnitInterval(s.avgTpRate) && InUnitInterval(s.avgTnRate)
    ensures (forall a, b :: InUnitInterval(auc(a, b))) ==> InUnitInterval(s.avgAuc)
    ensures varAccuracy >= 0.0 && s.varTrainingTime >= 0.0 && s.varTestTime >= 0.0
  {
    var t := RunAll(runs, newThreshold, auc);
    s := Summarize(runs, Reports(runs, newThreshold, auc), t);
    varAccuracy := VarianceAround(t.accuracyList, s.avgAccuracy);
    VarianceZeroIffConstant(t.accuracyList);
    AveragesAreRates(runs, newThreshold, auc);
    if forall a, b :: InUnitInterval(auc(a, b)) {
      AverageAucIsRate(runs, newThreshold, auc);
    }
  }

  /**
   `evaluate_k_fold` over the given folds. Besides the eight returned values it
   yields the accuracy and ROC-AUC variances `evaluate_k_fold` computes and prints.
   */
  method EvaluateKFold(folds: seq<Run>, newThreshold: real, auc: (seq<real>, seq<real>) -> real)
    returns (s: Summary, varAccuracy: real, varAuc: real)
    requires |folds| > 0 && AllWellFormed(folds)
    ensures var rs := Reports(folds, newThreshold, auc);
      && s.avgAccuracy == Mean(Accuracies(rs))
      && s.avgTpRate == Mean(TpRates(rs)) && s.avgTnRate == Mean(TnRates(rs))
      && s.avgAuc == Mean(Aucs(rs))
      && varAccuracy == PopVariance(Accuracies(rs))
      && varAuc == PopVariance(Aucs(rs))
      && (varAccuracy == 0.0 <==> Constant(Accuracies(rs)))
      && (varAuc == 0.0 <==> Constant(Aucs(rs)))
    ensures s.avgTrainingTime == Mean(TrainingTimes(folds)) && s.varTrainingTime == PopVariance(TrainingTimes(folds))
    ensures s.avgTestTime == Mean(TestTimes(folds)) && s.varTestTime == PopVariance(TestTimes(folds))
    ensures InUnitInterval(s.avgAccuracy) && InUnitInterval(s.avgTpRate) && InUnitInterval(s.avgTnRate)
    ensures (forall a, b :: InUnitInterval(auc(a, b))) ==> InUnitInterval(s.avgAuc)
    ensures varAccuracy >= 0.0 && varAuc >= 0.0 && s.varTrainingTime >= 0.0 && s.varTestTime >= 0.0
  {
    var t := RunAll(folds, newThreshold, auc);
    s := Summarize(folds, Reports(folds, newThreshold, auc), t);
    varAccuracy := VarianceAround(t.accuracyList, s.avgAccuracy);
    varAuc := VarianceAround(t.aucList, s.avgAuc);
    VarianceZeroIffConstant(t.accuracyList);
    VarianceZeroIffConstant(t.aucList);
    AveragesAreRates(folds, newThreshold, auc);
    if forall a, b :: InUnitInterval(auc(a, b)) {
      AverageAucIsRate(folds, newThreshold, auc);
    }
  }
}
