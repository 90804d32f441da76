# Hybrid risk scoring of the multiple-disease prediction app

The application has three pages: diabetes, heart disease and Parkinson's
disease. On each page the user fills in a form and presses a button. The
handler then builds the classifier's input vector in a fixed field order and
asks the pre-trained classifier for a prediction. It takes the risk as the
positive-class probability times 100. When no probability can be had, it
falls back to 100 or 0 from the binary prediction. For diabetes and heart
disease, a fixed combination of raw inputs raises the risk to a floor (75
and 80). The risk is then put in a severity band (high above 60, moderate
above 30, low otherwise). A low-confidence notice is shown below 50.

This project models that computation as pure Dafny functions over exact
reals and proves its properties:

- `wrappers.dfy`: `Option`, used for the probability that may be absent.
- `scoring.dfy` (module `Scoring`): the steps every page shares. These are
  the base risk, the floor, the band and the flag.
- `rules.dfy` (module `OverrideRules`): override rules as data. A rule is a
  conjunction of strict thresholds on vector positions plus a floor, and
  `ApplyRules` applies a table of them.
- `pages.dfy` (module `Pages`): the three pages.
  - The forms and their input vectors, where each position is tied to its
    field name.
  - One assessment function per page. Each follows its button handler.
  - A table-driven `Evaluate` over a `Condition`.
  - Lemmas proving, for every input and classifier, that each page computes
    what the table says.
  - Worked scenarios.

The classifier is opaque: a `Classifier` value holds two arbitrary
functions. `predict` gives the class label. `probability` gives the
positive-class probability, and is `None` where the library call fails.

The application has no schema-length check and no validation error of its
own: the code that builds each vector fixes its length. A bare `except`
catches any failure of the probability call, and the model reads every such
failure as "probability absent".

Evaluation is a pure function of its inputs. Evaluating the same form with
the same classifier twice therefore gives the same assessment, by
construction.

## Model

| member | source | states |
|---|---|---|
| Scoring.BaseRisk | app.py:60-65 | with a probability p the risk is p × 100; without one it is exactly 100 when the prediction is 1 and exactly 0 otherwise; with p in [0,1] or no probability the risk lies in [0,100] |
| Scoring.RaiseToFloor | app.py:68-69 | the override never lowers the risk, reaches the floor when triggered, changes nothing when not triggered, and yields either the old risk or the floor |
| Scoring.BandOf | app.py:73-79 | exactly one band: high iff risk > 60, moderate iff 30 < risk ≤ 60, low iff risk ≤ 30 |
| Scoring.Classify | app.py:73-82 | the assessment carries the risk, its band, and the low-confidence flag, which holds iff risk < 50 |
| Scoring.BandMonotone | app.py:73-79 | a higher risk never lands in a less severe band |
| Scoring.FlagAgainstBand | app.py:73-82 | the flag is independent of the band: high is never flagged, low always is, risk in (30,50) is moderate and flagged, risk in [50,60] is moderate and not flagged |
| Scoring.RaiseToFloorMonotone | app.py:68-69 | raising to a floor keeps the order of two risks |
| OverrideRules.AllExceeded | app.py:127 | a trigger holds iff every one of its fields is strictly above its bound |
| OverrideRules.ApplyRules | app.py:127-128 | applying an override table never lowers the risk, reaches the floor of every firing rule, leaves the risk alone when none fires, and gives either the model's risk or one firing floor (floors are not added up) |
| OverrideRules.ApplyRulesInRange | app.py:68-69 | with floors in [0,100], a risk in [0,100] stays in [0,100] after the override |
| OverrideRules.ApplyRulesMonotone | app.py:127-128 | a higher model risk never gives a lower risk after the override |
| Pages.DiabetesVector | app.py:54-58 | the diabetes vector has 8 entries; entry i is the field named at position i of the schema, so Glucose is at index 1 and BMI at index 5 |
| Pages.DiabetesAssess | app.py:53-82 | the diabetes risk is never below the model's risk and equals it unless glucose > 160 and BMI > 30; when both hold the risk is ≥ 75 and the band is high, and the risk is either the model's risk or exactly 75, i.e. max(model risk, 75); the risk stays in [0,100] for a valid probability; band and flag follow the risk |
| Pages.HeartVector | app.py:113-117 | the heart-disease vector has 13 entries; entry i is the field named at position i of the schema, so age is at index 0, trestbps at 3 and chol at 4 |
| Pages.HeartAssess | app.py:112-141 | the heart-disease risk is never below the model's risk and equals it unless age > 45, trestbps > 140 and chol > 240; when all hold the risk is ≥ 80 and the band is high, and the risk is either the model's risk or exactly 80, i.e. max(model risk, 80); the risk stays in [0,100] for a valid probability; band and flag follow the risk |
| Pages.ParkinsonsAssess | app.py:164-184 | the Parkinson's risk is exactly the model's risk with no override (the fallback gives 100 iff the prediction is 1); it stays in [0,100] for a valid probability; band and flag follow the risk |
| Pages.FieldNames | app.py:54-158 | the schemas have 8, 13 and 22 fields |
| Pages.RuleTable | app.py:67-128 | diabetes and heart disease have one override rule each and Parkinson's none; every rule reads a field inside its schema and has a floor in [0,100] |
| Pages.Evaluate | app.py:53-184 | the table-driven risk is never below the model's risk, reaches the floor of every firing rule of the condition's table, equals the model's risk when no rule fires, and is otherwise exactly one firing floor (so it is the maximum of the model's risk and the firing floors); it stays in [0,100] for a valid probability; band and flag follow the risk |
| Pages.DiabetesPageFollowsTable | app.py:53-82 | for every form and classifier, the diabetes page equals the table-driven evaluation of its vector |
| Pages.HeartPageFollowsTable | app.py:112-141 | for every form and classifier, the heart-disease page equals the table-driven evaluation of its vector |
| Pages.ParkinsonsPageFollowsTable | app.py:164-184 | for every 22-field input and classifier, the Parkinson's page equals the table-driven evaluation |
| Pages.EvaluateMonotone | app.py:119-138 | a classifier that gives a higher risk for the same vector never gives a lower final risk or a less severe band |
| Pages.DiabetesFloorScenario | app.py:62-82 | glucose 170, BMI 32 and probability 0.4 give risk 75, high band, no low-confidence flag |
| Pages.DiabetesLowScenario | app.py:62-82 | glucose 100, BMI 22 and probability 0.2 give risk 20, low band, low-confidence flag |
| Pages.HeartFloorScenario | app.py:121-141 | age 50, trestbps 150, chol 250 and probability 0.55 give risk 80, high band, no flag |
| Pages.HeartFallbackScenario | app.py:121-141 | the same trigger with no probability and prediction 0 raises the fallback 0 to 80, high band |
| Pages.ParkinsonsModerateScenario | app.py:169-183 | probability 0.45 gives risk 45, moderate band, low-confidence flag |

## Left out

- Streamlit presentation is not modelled: page setup, the sidebar menu, columns, text inputs and the coloured messages. The band and the flag are returned as values instead.
- Loading the three classifiers from disk with `pickle` is not modelled. The classifiers are opaque parameters, and their internals are not modelled.
- Reading the text fields with `float()` is not modelled. A text that is not a number raises an uncaught error in the application. The forms here hold numbers that were already read.
- The bare `except` around the probability call is modelled only as "probability absent" (`None`). Which exceptions it catches is not modelled.
- The two-decimal display of the risk score is not modelled.
- The loop that lays out the 22 Parkinson's text inputs is not modelled, because it is UI layout. The model takes those inputs as a sequence of numbers, one per field.
- Scoring.BaseRisk: probabilities are exact reals, not floating-point numbers. Rounding in `p * 100` is not modelled.
