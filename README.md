# Triage decision engine — Dafny model

This project models `TriageModel` from the TriageAI backend. `TriageModel` is the rule-based engine that turns a list of reported symptoms into a triage outcome. Given a list of symptoms, a patient age and a gender string, the engine:

- builds a seven-slot feature vector: age, a gender code, then up to five symptom severities padded with zeros;
- classifies the encounter by the mean severity into one of four ordered levels, Non-urgent < Semi-urgent < Urgent < Critical, using thresholds 4.5, 3.5 and 2.5;
- computes a confidence score, 1 − (population variance of the severities) / 4;
- looks up the recommended actions for a level (an empty list for an unknown level);
- looks up the time-to-treatment target for a level ("Within 1 hour" for an unknown level).

Everything is in one module, `TriageModel` (`triage_model.dfy`):

- The four table lookups and the classifier are functions.
- The feature builder is a method. It fills a zero-initialised five-element array in a loop and is proved equal to the function `Features`.
- Arithmetic is exact. Sums are integers; the mean, variance and confidence are `real`s.
- The level ladder is also proved in a division-free form. With n symptoms whose severities sum to S, the level is Critical iff 2S ≥ 9n, Urgent iff 7n ≤ 2S < 9n, Semi-urgent iff 5n ≤ 2S < 7n, and Non-urgent iff 2S < 5n.
- `predict` on an empty list divides by zero in the source. The model returns `Err(ZeroDivisionError)` for that case; it has no precondition.

The project's design notes describe behaviour that the code does not have. Examples:

- any symptom of severity 5 forcing Critical;
- relaxed thresholds of 3.0 (Urgent) and 2.0 (Semi-urgent) for two or more symptoms;
- pattern and risk-factor adjustments of the score;
- count and pattern factors in the confidence, and clamping of it;
- age-specific actions and times;
- a cause-of-injury validator;
- a "2 hours" Non-urgent time.

The code has none of these, so this model follows the code. For example, Non-urgent maps to "Within 1 hour" here, and a single 5 among low severities does not force Critical.

## Model

| member | source | states |
|---|---|---|
| TriageModel.LevelRank | backend/app/models/triage_model.py:9 | A string has a rank iff it is one of the four level names, and the rank indexes that name in the ordered level list |
| TriageModel.LevelRankOfIndex | backend/app/models/triage_model.py:9 | The four level names are distinct: ranking the name at index i gives back i |
| TriageModel.Lower | backend/app/models/triage_model.py:14 | The result has the input's length, and each character is the input's character with ASCII upper case folded to lower case |
| TriageModel.GenderCode | backend/app/models/triage_model.py:13-14 | The code is 0 iff the lower-cased gender is "male", 1 iff it is "female", and the default 2 for "other" and every unknown string |
| TriageModel.GenderCodeCaseInsensitive | backend/app/models/triage_model.py:14 | The gender code of a string equals the code of its lower-cased form |
| TriageModel.Features | backend/app/models/triage_model.py:11-25 | The vector has 7 entries: the age, the gender code, then for each of the 5 slots the severity of the symptom at that position if there is one, else 0 |
| TriageModel.FeaturesIgnoreExtraSymptoms | backend/app/models/triage_model.py:20-22 | Symptoms after the fifth do not change the feature vector |
| TriageModel.PrepareFeatures | backend/app/models/triage_model.py:11-25 | The loop over a zero-filled five-slot buffer yields exactly `Features` of the inputs |
| TriageModel.Mean | backend/app/models/triage_model.py:31-32 | The mean times the number of symptoms is the severity sum |
| TriageModel.LevelIndex | backend/app/models/triage_model.py:35-42 | The index is 3 iff the mean is at least 4.5, 2 iff it lies in [3.5, 4.5), 1 iff in [2.5, 3.5), and 0 iff below 2.5 |
| TriageModel.Variance | backend/app/models/triage_model.py:45 | The population variance (mean squared deviation from the mean, divisor n) is never negative |
| TriageModel.Confidence | backend/app/models/triage_model.py:46 | The confidence 1 − variance/4 never exceeds 1 |
| TriageModel.Predict | backend/app/models/triage_model.py:27-51 | The result is an error exactly when the symptom list is empty; otherwise the level is one of the four level names |
| TriageModel.PredictIgnoresPatient | backend/app/models/triage_model.py:28-32 | Age and gender do not affect the prediction; only the severities do |
| TriageModel.PredictLevelLadder | backend/app/models/triage_model.py:31-42 | For every non-empty list, each of the four levels is chosen iff twice the severity sum lies in that level's band of multiples of the count (9n, 7n, 5n) |
| TriageModel.LevelIndexMonotone | backend/app/models/triage_model.py:35-42 | A higher mean never gets a lower level index |
| TriageModel.PredictMonotone | backend/app/models/triage_model.py:31-42 | Raising one symptom's severity, with the others fixed, never lowers the level rank |
| TriageModel.VarianceAtMostFour | backend/app/models/triage_model.py:45-46 | Severities on the 1..5 scale have population variance at most 4, the divisor the source normalises by |
| TriageModel.VarianceZeroIffUniform | backend/app/models/triage_model.py:45 | The population variance is 0 iff all severities are equal |
| TriageModel.ConfidenceAtMostOne | backend/app/models/triage_model.py:45-46 | For any non-empty list the confidence is at most 1 |
| TriageModel.ConfidenceNonNegative | backend/app/models/triage_model.py:45-46 | With every severity in 1..5 the confidence lies in [0, 1] |
| TriageModel.ConfidenceOneIffUniform | backend/app/models/triage_model.py:44-46 | The confidence is exactly 1 iff all severities are equal |
| TriageModel.ConfidenceZeroAttained | backend/app/models/triage_model.py:45-46 | The lower bound is reached: severities 1 and 5 give confidence 0 |
| TriageModel.ConfidenceNegativeOffScale | backend/app/models/triage_model.py:45-46 | Off the 1..5 scale the confidence goes below 0: severities 1 and 9 give −3 |
| TriageModel.RecommendedActions | backend/app/models/triage_model.py:53-80 | A string gets four actions iff it is a level name, and the empty list iff it is not; Critical's list starts with life support |
| TriageModel.TimeToTreatment | backend/app/models/triage_model.py:82-89 | The target is "Immediate", "Within 10 minutes" or "Within 30 minutes" iff the level is Critical, Urgent or Semi-urgent respectively, and "Within 1 hour" iff it is none of those three |
| TriageModel.PredictionHasGuidance | backend/app/main.py:52-60 | For any non-empty symptom list, the predicted level has a four-item action list and a time-table entry, so the lookups never fall back to a default |

## Left out

- The random-forest classifier and the scaler created in the constructor (lines 7-8) are left out. They are never trained or used.
- `predict` computes the feature vector (line 28) and then ignores it. `Predict` does not call `PrepareFeatures`, because the value has no effect on the result.
- Floating point is not modelled: the Python mean and `np.var` are floats and the model computes exact reals. On the 1..5 scale with lists of realistic length every intermediate value is exact or nearly so, and only the last bits of the variance and confidence can differ. Large severities break this well before overflow: `np.var` sums the values in float64, so [2^52, 2^52 + 1] gets variance 0.5 and confidence 0.875 in the source, but 0.25 and 0.9375 in the model.
- Predict: does not model the `OverflowError` paths. Python's true division at line 32 raises one when the mean is beyond float range (one symptom of severity 10^400). `np.var` at line 45 raises one for any severity beyond float range (about 1.8·10^308), even when the mean is in range ([10^400, −10^400] has mean 0.0). The HTTP layer turns either into a server error. The model returns `Ok` in both cases, and its `Err` case covers only the empty list.
- The numpy `reshape(1, -1)` and `float(...)` conversions (lines 25, 50) are not modelled. The feature vector is a flat sequence and the confidence a `real`.
- Lower: folds only ASCII letters. Python's `str.lower()` also folds other Unicode letters, but none of them can turn a string into "male" or "female".
- Predict: does not require severities to lie in 1..5. The request schema (backend/app/main.py:29) types severity as a plain integer and only comments the scale. `ConfidenceNonNegative` needs the range as a precondition, and `ConfidenceNegativeOffScale` shows what happens without it.
- Not modelled: the HTTP layer and its error-to-500 mapping (backend/app/main.py), the storage models (backend/app/models/database.py), the health checks (backend/app/utils/health.py) and logging (backend/app/utils/logging.py). These are callers and infrastructure, not the engine. Only the call sequence at backend/app/main.py:52-60 appears, as `PredictionHasGuidance`.
- Also not modelled: the pattern analyser, risk adjustments, cause validator and age-specific guidance that the design description mentions. The code contains none of them.
