# GoldenBatchAI core in Dafny

GoldenBatchAI monitors a batch manufacturing process through five parameters:
temperature, pressure, pH, mixing speed and energy used. It derives a *golden
signature* from the history of past batches. The signature holds a mean and a
deviation for each adjustable parameter, taken over the largest cluster of
high-quality, low-energy batches. It then compares a new batch against that
signature.

This project models the logic of that system:

- `Common` (common.dfy): the parameters, a batch's readings, the signature as
  a map from parameter to mean and deviation, and sequence facts (subsequence,
  distinctness) that the filters rely on.
- `DeviationEngine` (deviation_engine.dfy): the dashboard's analysis. It
  looks up the risk label, fills a z-score table in a loop, flags the
  parameters with |z| > 2, emits one recommendation per flagged parameter
  (also a loop), and computes the health score (100 − 15 · mean |z|, floored
  at 0) and its three-way tier.
- `CorrectionEngine` (correction_engine.dfy): the command-line predictor. It
  gives the golden or deviation verdict and runs the correction loop over the
  four adjustable parameters. Each loop step is a pure decision on
  `value − mean`.
- `RiskLabeling` (risk_labeling.dfy): the severity-to-risk-class rule used
  to label the training history, applied row by row.
- `QualityScore` (quality_score.dfy): the quality formula of the synthetic
  history.
- `SignatureBuilder` (signature_builder.dfy): the derivation of the golden
  signature. It is a strict two-threshold filter, then the most frequent
  cluster label, the rows carrying that label, and per-parameter mean and
  sample variance.

The two classifier outputs, the k-means cluster labels and the two quantile
thresholds come from libraries. They are parameters of the model.

Behaviours of the code that are easy to expect otherwise. Each is what the
model does:

- An unknown risk code shows "Unknown" and raises no error (app.py:119).
- A zero deviation makes the dashboard's division (app.py:131) give an
  infinity or NaN, not an error. The model requires every deviation to be
  non-zero (`CompleteSignature`) and models neither outcome.
- k-means with three clusters fails on fewer than three golden rows, and so
  on an empty golden set. The model requires at least three golden rows.
- The command-line predictor suggests a correction once a reading is more
  than one deviation from its mean (src/predict_batch.py:55). This is
  independent of the dashboard's two-deviation flag.
- The dashboard's recommendation loop covers all five parameters, energy used
  included (app.py:185-190). The command-line predictor's loop covers only
  the four adjustable ones (src/predict_batch.py:52).
- The derived signature has no energy entry (src/golden_batch_analysis.py:54-60).
  The dashboard's signature, a separate input, does have one.
- The predictor's golden verdict (src/predict_batch.py:40) is for class 1. Its
  classifier is trained on the k-means cluster column (src/train_model.py:15),
  so class 1 is cluster id 1, not necessarily the dominant cluster the
  signature is taken from (src/golden_batch_analysis.py:44).
- The code fixes no tie-break between equally large clusters. Picking the
  smallest label is a deliberate choice of this model.

## Model

| member | source | states |
|---|---|---|
| DeviationEngine.RiskLabel | app.py:107-119 | Codes 0, 1 and 2 give the low, moderate and high labels. The result is "Unknown" exactly when the code is none of them, and unknown codes fall back rather than fail. |
| DeviationEngine.ZScore | app.py:129-131 | z · std equals value − mean, so z is (value − mean)/std. z is zero exactly when the value equals the golden mean. Requires std ≠ 0. |
| DeviationEngine.ReportOverAt | app.py:128-132 | The report over a parameter list has that list's length. Entry i is parameter i with its own z-score. |
| DeviationEngine.ReportShape | app.py:128-132 | The report has exactly five entries, for temperature, pressure, pH, mixing speed and energy used, in that order. An entry's z is zero exactly when that reading equals its golden mean. |
| DeviationEngine.ComputeDeviations | app.py:126-132 | The table-filling loop produces exactly the report: five z-scores in parameter order. |
| DeviationEngine.ZScoreLinear | app.py:131 | z is linear in the distance from the mean: twice the distance gives twice the z. |
| DeviationEngine.OutOfRangeMeansTwoSigma | app.py:147 | For a positive deviation, abs(z) > 2 holds exactly when the reading is more than two deviations from the mean. |
| DeviationEngine.RiskyParams | app.py:147 | The flagged list keeps report order, as a subsequence of the report's parameters. A parameter is in it exactly when some entry for it has abs(z) > 2. abs(z) = 2 is not flagged. |
| DeviationEngine.RiskyParamsOfReport | app.py:128-147 | On the dashboard's report, a parameter is flagged exactly when its own z-score has abs(z) > 2. The flagged list is an ordered subsequence of the five parameters. |
| DeviationEngine.RiskyParamsDistinct | app.py:147 | No parameter is flagged twice. |
| DeviationEngine.Recommend | app.py:185-190 | The loop emits one recommendation per flagged parameter, in flagged order. Each one names that parameter and quotes its golden mean. |
| DeviationEngine.SumAbs | app.py:197 | The sum of abs(z) is non-negative. It is zero only when every z is zero. |
| DeviationEngine.HealthScore | app.py:197-198 | The health score lies in [0, 100]. It is 100 only when every z-score is zero. |
| DeviationEngine.SumAbsZero | app.py:197 | A report with all z-scores zero has sum of abs(z) equal to zero. |
| DeviationEngine.SumAbsMonotone | app.py:197 | Raising abs(z) entrywise never lowers the sum. |
| DeviationEngine.HealthScoreFull | app.py:197-198 | The score is 100 if and only if every z-score is zero. |
| DeviationEngine.GoldenBatchIsHealthy | app.py:197-198 | A batch on the golden mean in every parameter scores 100. |
| DeviationEngine.HealthOfMeanAntitone | app.py:198 | A larger mean abs(z) never gives a higher score. |
| DeviationEngine.HealthScoreAntitone | app.py:197-198 | Of two reports of equal length, the one with the larger sum of abs(z) never scores higher. |
| DeviationEngine.HealthScoreMonotone | app.py:197-198 | Growing one abs(z) while the others stay fixed never raises the score. |
| DeviationEngine.ZScoreGrows | app.py:131 | A reading further from the mean has an abs(z) at least as large. |
| DeviationEngine.HealthScoreMonotoneInBatch | app.py:197-198 | Moving one parameter of a batch further from its golden mean never raises the batch's score. |
| DeviationEngine.TierOf | app.py:202-207 | Exactly one tier holds. Near optimal when score > 80, moderate when 60 < score ≤ 80, high when score ≤ 60. |
| DeviationEngine.Analyze | app.py:100-207 | One analysis run passes the quality prediction through and labels the risk prediction. It returns the five-entry report, the flagged parameters, one recommendation per flagged parameter with its golden mean, the health score (in [0, 100]) and that score's tier. |
| DeviationEngine.ExampleSignatureComplete | app.py:129-130 | The example signature covers all five parameters with non-zero deviations. |
| DeviationEngine.ExampleWithinRange | app.py:126-207 | A batch 10 degrees hot (z = 1 on temperature only) flags nothing and scores 97. |
| DeviationEngine.ExampleOutOfRange | app.py:126-207 | A batch 50 degrees hot (z = 5) flags only temperature, scores 85, and is near optimal. |
| DeviationEngine.ExampleTotals | app.py:147-198 | On a report deviating in temperature alone by t ≥ 0: temperature is flagged exactly when t > 2, the sum of abs(z) is t, and the score is that of mean t/5. |
| CorrectionEngine.VerdictOf | src/predict_batch.py:40-43 | The golden-match verdict is given exactly when the prediction is 1, which is cluster id 1 of the classifier's training labels. Every other prediction reports a deviation. |
| CorrectionEngine.Suggest | src/predict_batch.py:53-59 | A suggestion is made exactly when abs(value − mean) > std, so a difference equal to std gives none. It names the parameter. Its amount is abs(value − mean) ≥ 0. It says Decrease exactly when value > mean, and, for std ≥ 0, Increase exactly when value < mean. |
| CorrectionEngine.SuggestionsOverElements | src/predict_batch.py:52-59 | Every suggestion the loop emits is the per-parameter decision for its own parameter. |
| CorrectionEngine.SuggestionsOverOrder | src/predict_batch.py:52 | The suggested parameters keep the loop's parameter order, as a subsequence. |
| CorrectionEngine.SuggestionsOverMembers | src/predict_batch.py:52-55 | A parameter in the loop gets a suggestion exactly when its reading is more than one deviation from the golden mean. |
| CorrectionEngine.Corrections | src/predict_batch.py:50-59 | The correction loop produces exactly the suggestions specified for temperature, pressure, pH and mixing speed, in that order. |
| CorrectionEngine.CorrectionsSpec | src/predict_batch.py:52-59 | Only the four adjustable parameters are considered, each at most once and in order. Each is suggested exactly when abs(value − mean) > std. Energy used never is. Every amount is the size of the difference. |
| CorrectionEngine.BoundaryNotSuggested | src/predict_batch.py:55 | A reading exactly one non-negative deviation above or below the mean gets no suggestion. |
| RiskLabeling.RiskLevel | src/train_risk_model.py:8-14 | The rule is total with values 0, 1 and 2. score < 10 gives 0, 10 ≤ score < 20 gives 1, score ≥ 20 gives 2, so the boundaries go up. |
| RiskLabeling.RiskLevelMonotone | src/train_risk_model.py:8-14 | A higher severity never gets a lower class. |
| RiskLabeling.LabelAll | src/train_risk_model.py:16 | Labelling is elementwise. The output has the input's length, and label i is the rule applied to score i. |
| RiskLabeling.LabelsAreKnown | src/train_risk_model.py:8-16 | Every label the rule produces has a proper entry, never "Unknown", in the dashboard's risk table. |
| QualityScore.Quality | src/data_generator.py:21-26 | The score is at most 100. It equals 100 exactly when temperature is 180, pressure is 30 and pH is 7. |
| QualityScore.QualityIgnoresSpeedAndEnergy | src/data_generator.py:21-26 | Mixing speed and energy used do not affect the score. |
| QualityScore.QualityPenalty | src/data_generator.py:23-25 | Moving temperature or pressure d from nominal costs abs(d) points. Moving pH costs 5·abs(d). |
| QualityScore.QualitySymmetric | src/data_generator.py:23-25 | nominal + d and nominal − d give the same score, for each of the three scored readings. |
| QualityScore.QualityMonotone | src/data_generator.py:21-26 | Moving temperature, pressure or pH further from nominal never raises the score. |
| SignatureBuilder.GoldenRows | src/golden_batch_analysis.py:19-22 | The golden rows are an order-preserving subsequence of the history. A row is in them exactly when it is in the history with quality > q75 and energy < median, both strict. Every copy of a golden row is kept: its count equals its count in the history, and a non-golden row has count 0. |
| SignatureBuilder.GoldenRowsBounds | src/golden_batch_analysis.py:19-22 | There are never more golden rows than rows. A row exactly on either threshold is excluded. |
| SignatureBuilder.MostFrequentAmong | src/golden_batch_analysis.py:44 | The pick is a candidate with a count at least every other candidate's. It is the smallest such label. |
| SignatureBuilder.BestCluster | src/golden_batch_analysis.py:44 | The best cluster is a label that occurs. Its count is at least every label's count, and among equals it is the smallest label. |
| SignatureBuilder.ClusterRows | src/golden_batch_analysis.py:34-47 | The rows of cluster c are an ordered subsequence of the golden rows and include every golden row labelled c. They are as many as the labels equal to c. Each row occurs exactly as often as it is paired with label c in the labelled golden rows, so repeated rows keep every copy the select keeps. |
| SignatureBuilder.ExampleClusterRows | src/golden_batch_analysis.py:47 | Golden rows [a, a, b, b] labelled [0, 0, 0, 1] give [a, a, b] for cluster 0: one copy per labelled position. |
| SignatureBuilder.ClusterRowsOnlyLabelled | src/golden_batch_analysis.py:47 | Every row of the cluster subset is a golden row labelled c. |
| SignatureBuilder.BestClusterNonEmpty | src/golden_batch_analysis.py:44-47 | The best cluster's rows are non-empty whenever the golden rows are. |
| SignatureBuilder.SumBetween | src/golden_batch_analysis.py:54-56 | Values all in [lo, hi] sum to a value in [n·lo, n·hi]. |
| SignatureBuilder.MeanBetween | src/golden_batch_analysis.py:54-56 | The mean of values all in [lo, hi] lies in [lo, hi]. |
| SignatureBuilder.Min | src/golden_batch_analysis.py:54-56 | The smallest reading occurs in the column and is at most every reading. |
| SignatureBuilder.MaxOf | src/golden_batch_analysis.py:54-56 | The largest reading occurs in the column and is at least every reading. |
| SignatureBuilder.SquaredDeviations | src/golden_batch_analysis.py:58-60 | The sum of squared distances is non-negative. |
| SignatureBuilder.SampleVariance | src/golden_batch_analysis.py:58-60 | The variance, with divisor n − 1, is defined exactly when there are at least two values, and is then ≥ 0. |
| SignatureBuilder.SquaredDeviationsZero | src/golden_batch_analysis.py:58-60 | Values all equal to m have no squared distance from m. |
| SignatureBuilder.ConstantHasZeroVariance | src/golden_batch_analysis.py:58-60 | A column of at least two equal readings has variance exactly 0, which the dashboard would divide by. |
| SignatureBuilder.BestClusterRows | src/golden_batch_analysis.py:44-47 | With at least three golden rows labelled, the result is exactly the golden rows carrying the best cluster's label. It is non-empty and an ordered subsequence of the golden rows. It has one row per label equal to the best cluster, which is at least any cluster's count. Every row is a golden row labelled with the best cluster, and every golden row with that label is included. Each row occurs exactly as often as it is paired with the best label in the labelled golden rows. |
| SignatureBuilder.SignatureOf | src/golden_batch_analysis.py:54-60 | The signature has entries for exactly temperature, pressure, pH and mixing speed. Each variance is defined exactly when there are at least two rows, and is then ≥ 0. |
| SignatureBuilder.SignatureMeans | src/golden_batch_analysis.py:54-60 | Each signature mean is the arithmetic mean of that parameter over the rows, between its smallest and largest reading. Each variance is that column's sample variance. |
| SignatureBuilder.BuildSignature | src/golden_batch_analysis.py:19-60 | The whole derivation gives the signature of the best cluster's rows, with no entry for energy used. |

## Left out

- Presentation and I/O are not modelled. That covers the Streamlit page (inputs, metrics, tables, the comparison chart, the golden-signature display), console prints and `input()` prompts, CSV reading and writing, `joblib` model loading and saving, and the file-existence checks. The values they display or read are the model's inputs and outputs.
- The foreign machine-learning calls are not modelled. The quality and risk classifiers' predictions and the k-means cluster labels are parameters. k-means with three clusters needs at least three golden rows, which is a precondition of `SignatureBuilder.BestClusterRows` and `SignatureBuilder.BuildSignature` rather than a modelled failure.
- src/train_model.py is not part of this model. It only fits a classifier on stored data.
- The random drawing of the synthetic readings (src/data_generator.py:4-16) is not modelled. Only the quality formula is.
- The model uses exact real arithmetic. IEEE rounding, infinities and NaN are not modelled. A zero deviation, where the dashboard would divide by zero, is excluded by the precondition `CompleteSignature`.
- pandas' interpolating quantiles are not modelled. The 75th-percentile quality and the median energy are parameters of the golden filter.
- The two file layouts of the signature are not modelled, only the abstract signature map. The writer stores one row per parameter, without energy. The dashboard reads columns with an `_std` suffix, including energy.
- The dashboard's catch-all error handler (app.py:209-210) is not modelled. Under the preconditions nothing in the modelled analysis fails.
- DeviationEngine.Recommend: the target quoted in each recommendation is the exact golden mean, not the mean rounded to two decimals.
- CorrectionEngine.Suggest: the amount is the exact |value − mean|, not the figure rounded to two decimals that gets printed.
- CorrectionEngine.BoundaryNotSuggested: requires a non-negative deviation, since with a negative one every reading is suggested.
- SignatureBuilder.SignatureOf: gives each parameter's sample variance, not its square root (pandas' standard deviation), because the model has no square root. With fewer than two rows the variance is undefined, where pandas gives NaN.
- SignatureBuilder.BestCluster: breaks ties between equally large clusters by the smallest label. The source leaves ties to pandas' ordering, and the count property holds for any choice.
- SignatureBuilder.SquaredDeviationsZero: only one direction is stated (equal values give zero). The converse, that zero variance means all readings are equal, is not proved.
