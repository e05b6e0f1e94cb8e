# Patient risk prediction: labelling rule and scoring service

This project models the two pieces of domain logic in a small patient-risk prediction service.

1. **The labelling rule** `calculate_risk` from `app/train_model.py`. The rule sums an integer risk score from threshold checks on four vital signs:
   - heart rate, blood pressure and temperature each add 0–2 points, from a normal band and a tolerated band;
   - oxygen adds 0, 1 or 3 points.

   It then maps the score to class index 0 (Low), 1 (Medium) or 2 (High). Module `RiskRule` in `risk_rule.dfy`. Readings are exact `real`s.
2. **The scoring service** in `app/app.py`:
   - the `RISK_LEVELS` map;
   - the `health` probe;
   - the `predict` request handler.

   Module `Service` in `service.dfy` models `predict` as a pure function. It takes the loaded model (`Option<Classifier>`) and the decoded JSON body (`map<string, Json>`) and returns one `Outcome`:
   - `ModelNotLoaded` (500);
   - `Missing(fields)` (400);
   - `InvalidValue` (400);
   - `OutOfRange(field)` (400);
   - `PredictionFailed` (500);
   - `Ok(riskLevel, confidence, probabilities, input)` (200).

   The classifier is a pair of functions, `predict` and `predictProba`. Each returns a value or raises an exception.

Two support modules sit beside these:
- `VitalSigns` (`vital_signs.dfy`) holds the fields, their JSON keys, their fixed order, the `Vitals` record and closed `Band` intervals.
- `PyValues` (`py_values.dfy`) holds the Python behaviour that the handler relies on:
  - exceptions as the failure-compatible `Call<T>`, so that `:-` propagates them the way the `try` block does;
  - the kinds of JSON value;
  - the built-in `float(...)`;
  - `str()` of a list of strings.

The two `except` clauses are modelled exactly:
- a `ValueError` raised anywhere in the `try` block gives "Invalid input values" (400);
- every other exception gives "Prediction failed" (500).

So the outcome depends on which exception Python raises:
- `float` of a JSON `null`, list or object raises `TypeError`, which gives 500;
- an unparsable string raises `ValueError`, which gives 400;
- `float(true)` is `1.0`;
- a class index outside `{0, 1, 2}` fails the `RISK_LEVELS` lookup, which gives 500;
- a probability vector shorter than three fails the indexing, which gives 500.

## Notes on the source

- The comment on `app/train_model.py:93` calls `(110, 150, 100.5, 92)` "Medium risk". The rule scores that patient 4, because heart rate 110 > 100 also adds a point, so its label is High (`RiskRule.SamplePatients`). The comment and the rule disagree. The model follows the rule.
- A `null`, list or object field makes `float` raise `TypeError`. The catch-all clause at `app/app.py:120-123` turns that into 500 (`Service.NullFieldIsPredictionFailure`). Only an unparsable string gives 400.
- The model check at `app/app.py:55` runs before the request body is read (`Service.Predict`, `Service.HealthAgreesWithPredict`).

## Model

| member | source | states |
|---|---|---|
| RiskRule.BandPoints | app/train_model.py:30-45 | a two-sided vital adds 0..2 points; 0 exactly when the reading is inside the normal band (limits included), 2 exactly when it is outside the tolerated band |
| RiskRule.OxygenPoints | app/train_model.py:48-51 | oxygen adds exactly 0, 1 or 3 points; 0 exactly when o2 ≥ 95, 3 exactly when o2 < 90 |
| RiskRule.RiskScore | app/train_model.py:27-51 | the total score lies in [0, 9] and is 0 exactly when every reading is inside its normal band |
| RiskRule.Classify | app/train_model.py:54-59 | the mapping from score always yields 0, 1 or 2 |
| RiskRule.CalculateRisk | app/train_model.py:25-59 | calculate_risk is total, returns 0, 1 or 2, and returns 0 (Low) for readings all in their normal bands |
| RiskRule.ClassifyThresholds | app/train_model.py:54-59 | label 2 exactly for score ≥ 4, label 1 exactly for 2..3, label 0 exactly for ≤ 1 |
| RiskRule.ClassifyMonotone | app/train_model.py:54-59 | a higher score never gives a lower label |
| RiskRule.BandPointsMonotone | app/train_model.py:30-45 | moving a reading further outside its normal band, on the same side, never lowers its contribution |
| RiskRule.OxygenPointsAntitone | app/train_model.py:48-51 | a lower oxygen level never lowers its contribution |
| RiskRule.CalculateRiskMonotone | app/train_model.py:25-59 | if every reading is at least as far outside its normal band, the score and the label are at least as high |
| RiskRule.ThresholdsAreStrict | app/train_model.py:30-51 | the comparisons are strict: hr 100 and 60 add 0, hr 120 and 50 add 1, bp 140 adds 0 and 160 adds 1, temp 100 adds 0 and 102 adds 1, o2 95 adds 0, o2 90 adds 1 |
| RiskRule.SevereHypoxiaAloneIsMedium | app/train_model.py:48-57 | o2 < 90 with the other readings normal scores 3, so the label is Medium |
| RiskRule.SamplePatients | app/train_model.py:91-94 | the three sample patients score 0, 4 and 9 and get labels 0, 2 and 2 |
| PyValues.ToFloat | app/app.py:73-78 | float() returns a JSON number unchanged, a numeric string as its value, and true/false as 1.0/0.0; it raises ValueError exactly for an unparsable string, TypeError exactly for null, list or object, and never a lookup error |
| PyValues.ListReprMentionsEach | app/app.py:68-70 | the printed list in the missing-fields message contains every listed key in quotes |
| Service.RiskLevelsAreTheLabels | app/app.py:25-29 | RISK_LEVELS has exactly the keys 0, 1 and 2, and no two keys share a name |
| Service.RuleLabelsHaveNames | app/app.py:25-29 | every label the training rule produces is a key of RISK_LEVELS |
| Service.Health | app/app.py:31-38 | health always answers 200 with status "healthy", and model_loaded is true exactly when a model is present |
| Service.HealthAgreesWithPredict | app/app.py:55-58 | health reports the model absent exactly when predict answers "Model not loaded", whatever the body |
| Service.MissingFrom | app/app.py:64-65 | the filter keeps exactly the fields whose key is absent and keeps their order |
| Service.MissingFields | app/app.py:64-70 | the missing list holds exactly the absent fields, in the order heart_rate, blood_pressure, temperature, oxygen_level, without repeats, and is empty exactly when all four are present |
| Service.Parse | app/app.py:73-78 | conversion succeeds exactly when all four fields convert, and then yields their values; otherwise the exception is that of a field whose predecessors all converted |
| Service.FirstOutOfRange | app/app.py:81-89 | no field is reported exactly when all four lie in their inclusive ranges; a reported field is out of range and every field before it in the fixed order is in range |
| Service.Respond | app/app.py:96-103 | the response is built exactly when the index is a RISK_LEVELS key and there are three probabilities; its level is RISK_LEVELS[index], its confidence is probs[index] and its triple is probs[0..2]; otherwise a lookup error is raised |
| Service.Handle | app/app.py:115-123 | ValueError gives "Invalid input values"; every other exception gives "Prediction failed" |
| Service.Predict | app/app.py:53-123 | "Model not loaded" exactly when no model is present; a missing-fields answer exactly when a model is present and a field is absent, listing exactly the absent fields in the fixed order; a range error or a success only for a fully converted body, naming the first failing field or echoing the converted values |
| Service.Status | app/app.py:53-123 | 200 exactly for success; 400 exactly for missing, invalid and out-of-range; 500 exactly for an absent model and a failed prediction |
| Service.ErrorMessage | app/app.py:53-123 | the missing-fields message quotes every missing key, and a range message names its field |
| Service.MissingMessage | app/app.py:67-70 | the missing-fields message quotes every missing key |
| Service.RangeMessage | app/app.py:82-89 | each range message names the field it rejects |
| Service.ParsingPrecedesRangeChecks | app/app.py:73-89 | a conversion error is answered before any range check runs: ValueError gives InvalidValue and any other exception gives PredictionFailed |
| Service.ClassifierErrorsAreHandled | app/app.py:92-123 | an exception raised by the label prediction on checked input goes to the matching except clause |
| Service.ProbabilityErrorsAreHandled | app/app.py:93-123 | an exception raised by the probability output, after the label prediction returned, goes to the matching except clause |
| Service.PredictOutOfRange | app/app.py:81-89 | OutOfRange(f) is answered exactly when a model is present, all fields are present and convert, and f is the first field in the fixed order that is out of range |
| Service.PredictInvalidValue | app/app.py:73-118 | InvalidValue is answered exactly when a conversion raises ValueError, or the classifier raises ValueError on a body that passed every check |
| Service.PredictSucceeds | app/app.py:53-113 | success exactly when a model is present, every field is present, converts and is in range, the classifier returns a RISK_LEVELS key, and it returns at least three probabilities |
| Service.SuccessReportsPredictedClass | app/app.py:92-103 | on success the level is RISK_LEVELS[prediction], the confidence is probabilities[prediction] and equals the reported probability of that level, and low, medium and high are probabilities 0, 1 and 2 |
| Service.SuccessEchoesInput | app/app.py:104-109 | on success the echoed input is the four converted field values, unchanged |
| Service.RangeChecksInclusive | app/app.py:82-89 | the range limits themselves are accepted; one unit beyond each of the eight limits is rejected; when several fields fail, the earliest in the order is reported |
| Service.MissingExample | app/app.py:64-70 | a body with only heart_rate and temperature is answered Missing([blood_pressure, oxygen_level]) |
| Service.MissingMessageExample | app/app.py:67-70 | the message for those two is "Missing required fields: ['blood_pressure', 'oxygen_level']" |
| Service.InvalidBeforeOutOfRangeExample | app/app.py:73-89 | an unparsable blood pressure gives InvalidValue even though the heart rate before it (500) is out of range |
| Service.NullFieldIsPredictionFailure | app/app.py:73-123 | a JSON null field gives PredictionFailed (500), not InvalidValue |

## Left out

- Synthetic data generation, the train/test split, fitting, evaluation and printing (`app/train_model.py:11-22, 61-101`). These are random, floating-point and library-bound. Only `calculate_risk` is modelled.
- Classifier internals. `LogisticRegression.predict` and `predict_proba` are opaque functions in the model. Nothing is claimed about how the predicted index relates to the probabilities, or that the probabilities sum to 1, because the code checks neither.
- Loading and saving the model file. Whether a model is loaded is the `Option<Classifier>` parameter.
- Flask routing, `jsonify`, `render_template`, the static `/api` description and `app.run`. These are HTTP and presentation plumbing.
- Timestamps from `datetime.utcnow()`. These are wall-clock input.
- IEEE floating point. Readings are exact reals. A string such as "nan" or "inf" is not modelled. Python would convert it, and the range check would then reject it.
- A JSON number too large for a float is also not modelled.
- A request body that is not a JSON object, and `get_json()` failing, are not modelled. The body is always a map from key to JSON value.
- The parsed numeral of a JSON string is given with the value (`Text(numeral)`). Python's string-to-float parser is not modelled.
- Service.ErrorMessage: the text of the caught exception is not modelled. Python appends it after "Invalid input values: " and "Prediction failed: ". The model returns only the fixed prefix.
- Service.RangeMessage: it is proved to name its field. The bounds printed in the message are not proved to equal the checked bounds.
