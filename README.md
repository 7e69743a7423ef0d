# Diabetes risk scorers

This project models the two heuristic diabetes-risk rules of the DiabetesPredictor web application and proves properties of them in Dafny. They are kept side by side and not reconciled:

- **Browser scorer** (`DiabetesCalculator` in `calculator.js`, module `Calculator`). `getFormData` coerces the eight form fields. Each field falls back to its default when it parses to NaN or to 0. `computeRiskScore` sums eight terms: three-band rules for glucose and BMI, a two-band rule for age, a linear pedigree term, a capped pregnancy term and three step terms. Only the final sum is clamped into [0, 1]. `determineRiskLevel` returns a label and a CSS class, with thresholds at 0.25 and 0.6.
- **Server fallback rule** (`predict_diabetes` and `get_risk_level` in `app.py`, module `Server`). A missing field reads as 0. There are three terms, over glucose, BMI and age. Each term is floored at 0, and the sum is clamped into [0, 1]. The level is taken from that unscaled risk, with thresholds at 0.3 and 0.7.

All quantities are Dafny `real`s, i.e. exact rationals. The helper modules are `Wrappers` (`Option`), `RealArith` (`Min`, `Max`, `Clamp01`) and `RiskLabels` (the three label strings, which both sources spell the same way, and their order). The imperative `score +=` / `risk +=` accumulations are methods (`Calculator.ComputeRiskScore`, `Server.ComputeRisk`). Each method is proved equal to a functional definition, and the properties are proved about that definition.

The code's glucose, BMI and age ramps are not clamped per term: `(glucose - 70) / 30 * 0.1` is negative below 70. `Calculator.LowGlucoseLowersScore` shows the difference.

## Model

| member | source | states |
|---|---|---|
| Calculator.OrDefault | calculator.js:51-58 | `parsed \|\| fallback`: a NaN or 0 gives the fallback, every other number (negative ones too) is kept; a non-zero fallback never gives 0 |
| Calculator.GetFormData | calculator.js:49-60 | each field is kept or replaced by its default (0, 120, 70, 20, 80, 25.0, 0.5, 35); only the pregnancy count can come out as 0 |
| Calculator.GetFormDataIsDefaultIff | calculator.js:51-58 | a form gives the default record exactly when every field is NaN, 0 or already its default |
| Calculator.GetFormDataResubmit | calculator.js:51-58 | typing the coerced values back in gives the same record (coercion is idempotent) |
| Calculator.GlucoseTerm | calculator.js:67-69 | exactly 0.3 iff glucose >= 126; exactly 0.15 iff 100 <= glucose < 126; below 100 a ramp through 0 at 70 that stays under 0.1 and is negative exactly below 70 |
| Calculator.BmiTerm | calculator.js:72-74 | exactly 0.2 iff bmi >= 30; exactly 0.1 iff 25 <= bmi < 30; below 25 a ramp through 0 at 18 that stays under 0.05 and is negative exactly below 18 |
| Calculator.AgeTerm | calculator.js:77-78 | exactly 0.15 iff age >= 45; below 45 a ramp through 0 at 21 that stays under 0.1 and is negative exactly below 21 |
| Calculator.PedigreeTerm | calculator.js:81 | a tenth of the pedigree value, with no cap |
| Calculator.PregnancyTerm | calculator.js:84 | in [0, 0.09]; 0 when the count is not positive; 0.03 per pregnancy up to 3, then 0.09 |
| Calculator.BloodPressureTerm | calculator.js:85 | 0.05 iff blood pressure >= 80, else 0 |
| Calculator.SkinThicknessTerm | calculator.js:86 | 0.03 iff skin thickness >= 30, else 0 |
| Calculator.InsulinTerm | calculator.js:87 | 0.02 iff insulin >= 100, else 0 |
| RealArith.Clamp01 | calculator.js:89 | `min(1, max(0, x))` lies in [0, 1], is the identity on [0, 1], 0 below it and 1 above it (the same clamp ends app.py:47) |
| Calculator.RiskScore | calculator.js:62-90 | the score lies in [0, 1] whatever the inputs, and equals the raw sum whenever that sum already lies in [0, 1] |
| Calculator.ComputeRiskScore | calculator.js:62-90 | the step-by-step `score +=` accumulation and clamp returns exactly `RiskScore(data)`, a value in [0, 1] |
| Calculator.DetermineRiskLevel | calculator.js:92-96 | "Low Risk" iff score < 0.25, "Medium Risk" iff 0.25 <= score < 0.6, "High Risk" iff score >= 0.6; the class is "low"/"medium"/"high" exactly with the matching level |
| Calculator.CalculateRisk | calculator.js:41-47 | coercing the form, scoring and classifying gives `RiskScore(GetFormData(form))` and its level |
| Calculator.RiskScoreMonotone | calculator.js:67-89 | raising any fields (fieldwise order on records) never lowers the score |
| Calculator.ScoreOfOneNeedsPedigree | calculator.js:67-89 | all terms but the pedigree term sum to at most 0.84; a score of 1 needs pedigree >= 1.6; a raw sum >= 1 is clamped to exactly 1 |
| Calculator.RiskScoreAttainsEveryValue | calculator.js:62-90 | every value in [0, 1] is the score of some record, so the clamp bounds are tight |
| Calculator.DetermineRiskLevelMonotone | calculator.js:92-96 | a higher score never gets a lower level |
| Calculator.EmptyFormScore | calculator.js:51-96 | an empty form becomes the default record, whose score is 43/120 (≈ 0.358) and Medium Risk |
| Calculator.NormalRecordIsLowRisk | calculator.js:67-96 | a record with glucose 85, bmi 26.6, age 31, pedigree 0.351 scores 0.1851 + 1/24 (about 0.227): Low Risk |
| Calculator.DiabeticRecordIsHighRisk | calculator.js:67-96 | glucose 148, bmi 33.6, age 50, pedigree 0.627, 6 pregnancies, blood pressure 72 score exactly 0.8027: High Risk |
| Calculator.ExtremeRecordIsClamped | calculator.js:67-96 | extreme values in every field give a raw sum of 1.34, clamped to exactly 1: High Risk |
| Calculator.LowGlucoseLowersScore | calculator.js:67-69 | a glucose of 40 scores lower than a glucose of 70 with everything else at its default: the ramp is not clamped at 0 |
| Server.Field | app.py:37-39 | an absent key reads as 0; a present value is used as is |
| Server.GlucoseTerm | app.py:43 | at least 0; exactly 0 iff glucose <= 70; above 70 it is (glucose - 70) / 260 |
| Server.BmiTerm | app.py:44 | at least 0; exactly 0 iff bmi <= 18; above 18 it is 3 (bmi - 18) / 220 |
| Server.AgeTerm | app.py:45 | at least 0; exactly 0 iff age <= 21; above 21 it is (age - 21) / 295 |
| Server.Risk | app.py:42-47 | the clamped sum lies in [0, 1] |
| Server.RequestRisk | app.py:37-47 | the risk of a request, with absent fields read as 0, lies in [0, 1] |
| Server.ComputeRisk | app.py:42-47 | the three `risk +=` steps and the clamp return exactly `Risk(glucose, bmi, age)` |
| Server.GetRiskLevel | app.py:62-68 | "Low Risk" iff risk < 0.3, "Medium Risk" iff 0.3 <= risk < 0.7, "High Risk" iff risk >= 0.7 |
| Server.PredictDiabetes | app.py:37-54 | `risk_score` is 100 times the request's risk (before rounding), in [0, 100], and `risk_level` is the level of the request's unscaled, unrounded risk |
| Server.RiskMonotone | app.py:43-47 | raising glucose, BMI or age never lowers the risk |
| Server.RiskZeroIff | app.py:43-47 | the risk is 0 exactly when glucose <= 70, bmi <= 18 and age <= 21 |
| Server.RiskAttainsEveryValue | app.py:42-47 | every value in [0, 1] is the risk of some input |
| Server.RiskIgnoresPregnanciesAndDpf | app.py:24-47 | two requests that agree on glucose, BMI and age have the same risk, whatever their pregnancies and dpf |
| Server.GetRiskLevelMonotone | app.py:62-68 | a higher risk never gets a lower level |
| Server.EmptyRequestIsLowRisk | app.py:37-47 | a request without fields has risk 0 and is Low Risk |

## Left out

- DOM work in `calculator.js` is left out because it is presentation only. This covers event listeners, `displayResults`, scrolling, class-list edits, the feature bars, `getRiskDescription` and `getRecommendations`; the file ends at line 131, inside `getRiskDescription`.
- `featureWeights` (calculator.js:4-13) is left out: it only feeds the feature-bar display and does not affect the score.
- `parseInt`/`parseFloat` are modelled abstractly as an optional parsed number, so the truncation `parseInt` applies to integer fields is not modelled.
- Percentage formatting is left out as display rounding: `(score * 100).toFixed(1)` in the browser and `round(risk * 100, 1)` on the server. `Server.PredictDiabetes` reports the unrounded `risk * 100`.
- IEEE floating point (rounding, NaN and infinities after parsing) is not modelled; quantities are exact rationals.
- Flask routing, `request.json`, `jsonify`, CORS and the unused numpy `features_array` (app.py:24-33) are I/O or library calls and are left out.
- The `{success: False}` path of `predict_diabetes` (app.py:56-60) is left out. `float()` raises there on a non-numeric value, including the pregnancies and dpf values that app.py:24-30 parse but never use. Request fields are modelled as absent or numeric only.
- Server.PredictDiabetes: `risk_score` is not rounded. In the program it is `round(risk * 100, 1)` while the level comes from the unrounded `risk`, so `risk_score / 100` can land on the other side of 0.3 or 0.7 from the risk the level is computed from (a glucose of 147.99 gives risk about 0.29996, reported as 30.0 yet Low Risk); the model states the level against the risk itself.
- `script.js` is not part of this model: it holds only event wiring and page styling.
