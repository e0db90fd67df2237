# Evaluation metrics of a binary classifier

This project models the arithmetic core of `EvaluationTools` in
`src/evaluation_tools.py`.

- `test` scores one trained classifier on one test set. It takes the model's
  binary decisions and scores. It can replace the decisions by thresholding the
  scores. It then counts errors, positives P, negatives N, true positives TP and
  true negatives TN in a single pass. From these it derives:
  - accuracy;
  - the true-positive rate (sensitivity);
  - the true-negative rate (specificity);
  - precision;
  - recall;
  - the ROC-AUC score.
- `evaluate_multiple_times` and `evaluate_k_fold` repeat training and `test` over
  random splits or k folds. They keep running sums and lists, and return averages
  and population variances.

The project has five modules:

- `Binary` (`binary.dfy`): the threshold override and the label binarization for
  the ROC-AUC routine.
- `Confusion` (`confusion.dfy`): the counting loop and its tally, `Tally`.
  - It also has reference definitions: the sets of positions each counter is meant
    to count.
- `Metrics` (`metrics.dfy`): the rates, precision, accuracy and `Test`, with
  lemmas relating the returned metrics to the counted positions.
- `Stats` (`stats.dfy`): sum, mean and population variance.
  - Facts about them: the mean stays between the bounds of the values, and the
    variance is zero exactly when all values are equal.
- `Evaluation` (`evaluation.dfy`): the two drivers.
  - One loop is shared by both drivers. What it leaves behind is stated by
    `Accumulates`: the sums and lists of the per-repetition values.
  - The drivers' results are stated as means and population variances of the
    per-repetition values.

The following are parameters of the model:

- The classifier: each test set arrives with the classifier's decisions and scores
  as sequences.
- The ROC-AUC routine: a function parameter applied to the binarized labels and
  the scores.
- The data splitting and the measured durations: each repetition arrives as a
  `Run` value.

Floats are modelled as exact reals. The counters, which the source keeps as floats
holding whole numbers, are natural numbers.

Where the code and its documentation differ, the model follows the code:

- The docstrings say a *positive* `new_threshold` overrides the decisions. The
  code overrides on `new_threshold >= 0.0`, so a threshold of exactly 0 also
  overrides, and every non-negative score is decided 1.
- Labels are documented to be 0 or 1, but the code does not check it. A label
  outside {0, 1} counts as neither positive nor negative; it is still compared
  with the prediction for the error count. The model keeps labels as arbitrary
  reals and states which properties need binary labels.

## Model

| member | source | states |
|---|---|---|
| Binary.Decisions | src/evaluation_tools.py:21-23 | a negative threshold keeps the model's decisions unchanged; a non-negative one yields one 0/1 decision per score, 1 exactly where the score reaches the threshold |
| Binary.DecisionsMonotone | src/evaluation_tools.py:22-23 | raising a non-negative threshold never turns a negative decision into a positive one |
| Binary.ThresholdExample | src/evaluation_tools.py:22-23 | scores 0.9, 0.6, 0.3 at threshold 0.7 give decisions 1, 0, 0 whatever the model decided |
| Binary.LabelsForAuc | src/evaluation_tools.py:50 | the labels passed to the ROC-AUC routine are 0/1, one per label, 1 exactly where the label exceeds one half |
| Binary.LabelsForAucKeepsBinaryLabels | src/evaluation_tools.py:50 | on labels already in {0, 1} the binarization is the identity |
| Confusion.Step | src/evaluation_tools.py:30-39 | one pair moves each counter up by at most one: the error count exactly when prediction and label differ, P exactly when the label is 1, N exactly when it is 0 (never both), TP exactly when both are 1 and TN exactly when both are 0 |
| Confusion.Tally | src/evaluation_tools.py:24-39 | TP <= P, TN <= N, P + N <= length and errors <= length |
| Confusion.TallyOnBinaryData | src/evaluation_tools.py:29-39 | with 0/1 labels P + N is the length; with 0/1 labels and decisions the errors are exactly the missed positives plus the missed negatives |
| Confusion.TallyCountsPositions | src/evaluation_tools.py:29-39 | each counter equals the number of positions of its kind: mismatches, label 1, label 0, both 1, both 0 |
| Confusion.CountConfusion | src/evaluation_tools.py:24-39 | the single loop over label/prediction pairs leaves exactly the tally of the pairs, which `TallyCountsPositions` relates to the positions of each kind |
| Metrics.TpRate | src/evaluation_tools.py:40-44 | 1.0 when there is no positive label; otherwise rate times P equals TP, the rate lies in [0, 1], and it is 1 exactly when every positive is found and 0 exactly when none is |
| Metrics.TnRate | src/evaluation_tools.py:45-49 | the same for negatives: 1.0 when N is 0, otherwise rate times N equals TN, in [0, 1], 1 or 0 exactly when all or none of the negatives are found |
| Metrics.Precision | src/evaluation_tools.py:51-56 | a zero denominator TP + (N - TN) gives 0.0 and forces TP = 0; otherwise precision times the denominator is TP, it lies in [0, 1], and it is 1 exactly without false positives and 0 exactly without true positives |
| Metrics.Accuracy | src/evaluation_tools.py:58 | accuracy times the length equals the number of correct pairs; it lies in [0, 1] and is 1 exactly when there is no error |
| Metrics.AccuracyAsFraction | src/evaluation_tools.py:58 | when every pair is an error or correct, one minus the error fraction is the correct fraction |
| Metrics.Test | src/evaluation_tools.py:21-58 | accuracy, TP rate, TN rate and precision all lie in [0, 1]; recall equals the TP rate; the ROC-AUC value is the routine applied to the binarized labels and the scores |
| Metrics.TestCountsPositions | src/evaluation_tools.py:24-58 | every returned metric, including both fallbacks, expressed through the numbers of mismatching, positive, negative, true-positive and true-negative positions |
| Metrics.AccuracyOnBinaryData | src/evaluation_tools.py:29-58 | with 0/1 labels and 0/1 decisions, accuracy equals (TP + TN) divided by the number of pairs |
| Metrics.ThresholdOverridesModel | src/evaluation_tools.py:22-23 | with a non-negative threshold the report does not depend on the model's own decisions |
| Metrics.AllPositiveLabels | src/evaluation_tools.py:45-47 | with only positive labels the TN rate falls back to 1.0 (with the ROC-AUC routine a total function; see "Left out") |
| Metrics.FallbacksMeanSingleClass | src/evaluation_tools.py:40-50 | on 0/1 labels, no positive label means every label handed to the ROC-AUC routine is 0, and no negative label means every one is 1 |
| Metrics.ScenarioExample | src/evaluation_tools.py:29-58 | labels 1, 1, 0, 0 against decisions 1, 0, 0, 0 give accuracy 0.75, TP rate and recall 0.5, TN rate 1.0 and precision 1.0 |
| Stats.SumAppend | src/evaluation_tools.py:95-98 | adding one more value to a running total gives the sum of all values seen, so the running sums equal the one-shot `sum(...)` of the lists at lines 101 and 103 |
| Stats.Mean | src/evaluation_tools.py:99 | the mean times the number of values is their sum; lines 101, 103, 105, 106 and 120 of `evaluate_multiple_times` and lines 167, 169, 171, 173, 175 and 176 of `evaluate_k_fold` compute the same sum-over-count quotient |
| Stats.SumBounds | src/evaluation_tools.py:95-99 | a sum of values within [lo, hi] lies between count times lo and count times hi |
| Stats.MeanWithinBounds | src/evaluation_tools.py:99 | the mean of values within [lo, hi] lies in [lo, hi] |
| Stats.MeanBetweenMinAndMax | src/evaluation_tools.py:99 | the mean lies between the smallest and the largest value |
| Stats.MeanOfConstant | src/evaluation_tools.py:99 | the mean of equal values is that value |
| Stats.PopVariance | src/evaluation_tools.py:100 | the population variance (dividing by the count, not by one less) is non-negative |
| Stats.VarianceAround | src/evaluation_tools.py:100-104 | the squared deviations from a precomputed centre, divided by the count: non-negative, and times the count it gives back the squared deviations |
| Stats.SquaredDeviationsZero | src/evaluation_tools.py:100 | the squared deviations from c vanish exactly when every value equals c |
| Stats.VarianceZeroIffConstant | src/evaluation_tools.py:99-100 | the population variance is zero exactly when all values are equal |
| Stats.VarianceExample | src/evaluation_tools.py:99-100 | accuracies 0.8, 0.9, 0.7 have mean 0.8 and population variance 0.02 / 3 |
| Evaluation.Reports | src/evaluation_tools.py:91 | one report per repetition, whose accuracy and rates lie in [0, 1] and whose ROC-AUC value is the routine applied to that repetition's binarized labels and scores |
| Evaluation.Add | src/evaluation_tools.py:89-98 | one repetition adds its accuracy, TP rate, TN rate and ROC-AUC value to the four sums and appends its values to the lists, leaving the earlier entries as they were |
| Evaluation.AddAccumulates | src/evaluation_tools.py:156-166 | adding one repetition's report to the sums and its values to the lists keeps the totals equal to the sums and lists of the per-repetition values seen so far |
| Evaluation.RunAll | src/evaluation_tools.py:138-166 | after the repetition loop, the four sums are the sums of the per-repetition accuracies, TP rates, TN rates and ROC-AUC values, and the kept lists are the accuracies, ROC-AUC values and durations in order; this is the k-fold loop, and the loop of `evaluate_multiple_times` (lines 75-98) is the same except that it keeps no ROC-AUC list, so there the list is extra state that only `EvaluateKFold`'s ROC-AUC variance reads |
| Evaluation.Summarize | src/evaluation_tools.py:99-106 | from the loop's totals: the averages are the means of the per-repetition metrics, and the timing averages and variances are the means and population variances of the durations |
| Evaluation.AveragesAreRates | src/evaluation_tools.py:99-106 | the average accuracy, TP rate and TN rate lie in [0, 1] |
| Evaluation.AverageAucIsRate | src/evaluation_tools.py:98-120 | the average ROC-AUC lies in [0, 1] when the routine only returns values in [0, 1] |
| Evaluation.EvaluateMultipleTimes | src/evaluation_tools.py:75-120 | the eight returned values are means and population variances of the per-repetition metrics and durations; the averaged rates lie in [0, 1]; the accuracy variance is non-negative and zero exactly when all accuracies are equal |
| Evaluation.EvaluateKFold | src/evaluation_tools.py:138-191 | the same for the folds, plus the ROC-AUC variance, which is non-negative and zero exactly when all fold scores are equal |

## Left out

- The classifier: `predict`, `train`, `set_to_default` and the printed model representation are external. Their outputs enter as data.
- Splitting: `train_test_split`, `KFold` and its seed are external library routines. Each repetition's test set enters as a `Run`.
- Timing: `time.time()` is a clock. Each repetition carries its two measured durations.
- The ROC-AUC computation (`roc_auc_score`) is a function parameter and is total. The real routine raises an exception on a single-class label vector. With 0/1 labels, P = 0 or N = 0 means exactly such a vector at line 50 (`Metrics.FallbacksMeanSingleClass`). So on documented inputs `test` never returns its TP-rate or TN-rate fallback of 1.0. Those fallbacks, and the reports behind `Metrics.AllPositiveLabels`, exist only in the model, where the routine always returns.
- Console output: the warnings on missing positives, negatives or true positives, and the printed summaries, are not modelled.
- Last-iteration printing: the drivers print the precision and recall of the last iteration only. These values are neither aggregated nor returned, so the model drops them.
- Floating point: rounding is not modelled, and all arithmetic is exact over the reals.
- Unequal lengths: `zip` silently truncates to the shorter of labels and decisions, while accuracy divides by the number of decisions. The model requires equal lengths, as the documented invariant does.
- Empty inputs: an empty test set divides by zero in the accuracy. Zero runs make `evaluate_multiple_times` divide by zero in the averages at line 99. `evaluate_k_fold` never reaches its averages with fewer than two folds, because `KFold` at line 146 rejects such a split. A negative `no_runs` gives an empty loop: lines 99-106 then divide by a negative count without an error, but `precision` and `recall` were never assigned, so the print at line 113 raises an error and the driver does not return. The model requires a non-empty sequence of runs, so it also admits a single fold, which `KFold` would refuse.
- Variance shortcut: the identity between the population variance and the mean of squares minus the squared mean is not proved. The source never uses it.
