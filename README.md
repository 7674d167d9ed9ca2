# Heart-disease prediction pipeline, modelled in Dafny

The service wraps a fitted scikit-learn classifier in an HTTP API. This
project models the part of it that has behaviour of its own: the
prediction pipeline.

- **Request schema** (`HeartDiseaseInput`, module `Schema`): thirteen
  clinical fields. Twelve are integers and `oldpeak` is real. Each field
  has inclusive `ge`/`le` bounds. A record is accepted exactly when every
  field is within its own bounds, and a rejection lists every offending
  field.
- **Response schema** (`HeartDiseasePrediction`): the diagnosis flag, a
  probability that must lie in [0, 1], and a risk level that must be one of
  `"Low"`, `"Medium"` or `"High"`. Building the record validates both.
- **Feature vectorisation** (module `Preprocessing`): the record is dumped
  to a dictionary and its values are read in the fixed `FEATURE_ORDER`. A
  missing key raises "Missing required feature". The fitted scaler is
  applied once. A `KeyError` from the scaler is also reported as "Missing
  required feature"; any other scaler exception becomes "Preprocessing
  failed".
  `validate_feature_order` compares a list of names with `FEATURE_ORDER`.
- **Prediction** (module `Predictor`): preprocess, take component 1 of the
  classifier's probability row, take the classifier's discrete class, bucket
  the unrounded probability into a risk level (thresholds 0.4 and 0.7),
  round the probability to four places and build the response. Any failure
  along the way is the single error "Prediction failed: …".

The scaler and the classifier are opaque. They are modelled as
datatypes of total functions over one row (`Scaler`, `Classifier`). Each
function returns either its answer or the exception it raised. The
classifier's exceptions are their text. The scaler's exception (`Raised`)
also records whether it is a `KeyError`, because preprocessing handles that
class separately.
Every member is a function, so one record and one pair of artifacts always
give the same feature vector and the same prediction.
`PredictDependsOnlyOnArtifactAnswers` states that nothing else enters the
result. The predictor never changes its model or its scaler, so it is a
datatype rather than a class.

## Model

| member | source | states |
|---|---|---|
| `Schema.ViolationsIn` | heart_disease_api/app/schemas/heart.py:17-94 | a field is reported exactly when it is among the fields checked and out of its bounds; the report is a sub-multiset of the fields checked, so no field is reported more often than it was checked |
| `Schema.Violations` | heart_disease_api/app/schemas/heart.py:17-94 | every out-of-range field of the record is reported, and no other |
| `Schema.Validate` | heart_disease_api/app/schemas/heart.py:10-94 | a record is accepted, unchanged, exactly when it is valid; otherwise the error is non-empty and lists exactly the offending fields |
| `Schema.ValidIffEveryField` | heart_disease_api/app/schemas/heart.py:17-94 | validity is the conjunction of the thirteen per-field checks, and holds exactly when no violation is reported |
| `Schema.FieldChecksAreIndependent` | heart_disease_api/app/schemas/heart.py:17-94 | a record that differs from a valid one only in field f is valid exactly when its f is in range, so no check reads another field |
| `Schema.AgeBounds` | heart_disease_api/app/schemas/heart.py:17-22 | age is accepted exactly on 1..120; ages 0 and 121 are rejected; a valid record stays valid with age 1 or 120 |
| `Schema.BinaryFieldBounds` | heart_disease_api/app/schemas/heart.py:23-70 | sex, fbs and exang are accepted exactly when they are 0 or 1 |
| `Schema.CategoricalFieldBounds` | heart_disease_api/app/schemas/heart.py:29-94 | cp and thal accept 0..3, restecg and slope 0..2, ca 0..4 |
| `Schema.MeasurementFieldBounds` | heart_disease_api/app/schemas/heart.py:35-64 | trestbps and thalach accept 50..250, chol 100..600 |
| `Schema.OldpeakBounds` | heart_disease_api/app/schemas/heart.py:71-76 | the real-valued oldpeak is accepted exactly on [0, 10] |
| `Schema.ExampleIsValid` | heart_disease_api/app/schemas/heart.py:96-113 | the documented example record satisfies every bound and passes validation unchanged |
| `Schema.MakePrediction` | heart_disease_api/app/schemas/heart.py:116-135 | a response is built exactly when the probability is in [0, 1] and the risk level is one of the three literals; otherwise each offending field is named |
| `Preprocessing.ModelDump` | heart_disease_api/app/utils/preprocessing.py:47 | the dumped dictionary has every field's name as a key, mapped to that field's value |
| `Preprocessing.Gather` | heart_disease_api/app/utils/preprocessing.py:50-61 | extraction succeeds exactly when every name is a key; position i then holds the value of name i; otherwise the reported key is the first missing name |
| `Preprocessing.PreprocessFailure` | heart_disease_api/app/utils/preprocessing.py:56-63 | a `KeyError` from the scaler becomes the missing-feature error for its key, any other exception "Preprocessing failed"; `PreprocessError.Message` then reads "Missing required feature: " or "Preprocessing failed: " followed by the exception's text (`Raised.Str`, a key in quotes) |
| `Preprocessing.PreprocessDict` | heart_disease_api/app/utils/preprocessing.py:45-63 | when some FEATURE_ORDER name is absent the result is the missing-feature error for the first absent name, and the scaler is not consulted; otherwise the result is the scaler applied once to the ordered values, or its exception handled by class as in `PreprocessFailure` |
| `Preprocessing.FeatureVector` | heart_disease_api/app/utils/preprocessing.py:12-53 | the vector has 13 entries and position i holds the value of the i-th declared field |
| `Preprocessing.PreprocessInput` | heart_disease_api/app/utils/preprocessing.py:29-63 | preprocessing a record returns the scaler's single answer on the record's feature vector, or that scaler's exception handled by class as in `PreprocessFailure`: the missing-feature error arises only from a `KeyError` the scaler raises, since a dumped record has every key |
| `Preprocessing.ValidateFeatureOrder` | heart_disease_api/app/utils/preprocessing.py:66-75 | true exactly when the list has FEATURE_ORDER's length and agrees with it position by position |
| `Preprocessing.FeatureOrderMatchesSchema` | heart_disease_api/app/utils/preprocessing.py:12-26 | FEATURE_ORDER has 13 names, and name i is the name of the schema's i-th declared field |
| `Preprocessing.FeatureOrderDistinct` | heart_disease_api/app/utils/preprocessing.py:12-26 | the 13 names are pairwise distinct, and as a set they are exactly the keys of a dumped record |
| `Preprocessing.FeatureVectorPositions` | heart_disease_api/app/utils/preprocessing.py:12-50 | index 0 of the vector is age, index 9 is oldpeak, index 12 is thal |
| `Preprocessing.FeatureVectorInjective` | heart_disease_api/app/utils/preprocessing.py:47-53 | records with equal vectors are equal: vectorisation loses no field |
| `Preprocessing.MissingFeatureReported` | heart_disease_api/app/utils/preprocessing.py:50-61 | a dictionary that lacks any FEATURE_ORDER name yields the missing-feature error and no vector; the key is an absent FEATURE_ORDER name, and `PreprocessError.Message` reads "Missing required feature: '" + key + "'" |
| `Preprocessing.FirstMissingFeatureReported` | heart_disease_api/app/utils/preprocessing.py:50-61 | when name i is the first absent one, the error is exactly the missing-feature error for name i, with message "Missing required feature: '<name i>'" |
| `Preprocessing.SwapBreaksFeatureOrder` | heart_disease_api/app/utils/preprocessing.py:66-75 | swapping any two positions of FEATURE_ORDER makes the order check false |
| `Predictor.GetRiskLevel` | heart_disease_api/app/models/predictor.py:72-91 | High exactly when p >= 0.7; Medium exactly when 0.4 <= p < 0.7; Low exactly when p < 0.4 |
| `Predictor.RoundHalfEven` | heart_disease_api/app/models/predictor.py:65 | the result is an integer within 1/2 of its argument, and it is the argument itself when that is already whole |
| `Predictor.Round4` | heart_disease_api/app/models/predictor.py:65 | the result is a whole number of ten-thousandths within 0.00005 of the input; it stays in [0, 1] when the input is in [0, 1]; it leaves four-place inputs unchanged |
| `Predictor.HeartDiseasePredictor.Infer` | heart_disease_api/app/models/predictor.py:41-57 | succeeds exactly when the scaler and both classifier calls return and the probability row has a component 1; gives (class == 1, component 1); a scaler exception becomes "Prediction failed" around the preprocessing error `PreprocessFailure` gives for it; an exception from `predict_proba` or `predict` is carried with its own text; a probability row without component 1 is the index error |
| `Predictor.HeartDiseasePredictor.Predict` | heart_disease_api/app/models/predictor.py:29-70 | every returned response satisfies the response schema; it succeeds exactly when the classifier steps succeed and the rounded probability is in [0, 1]; the diagnosis is the class test, the probability is rounded, and the risk level comes from the unrounded probability; classifier failures pass through unchanged |
| `Predictor.HeartDiseasePredictor.PredictConsistent` | heart_disease_api/app/models/predictor.py:60-67 | same outcome, diagnosis and probability as Predict, but the risk level always agrees with the reported probability |
| `Predictor.RiskLevelMonotone` | heart_disease_api/app/models/predictor.py:72-91 | p <= q implies rank(risk(p)) <= rank(risk(q)), with Low < Medium < High |
| `Predictor.RiskLevelBoundaries` | heart_disease_api/app/models/predictor.py:86-91 | 0.0 and 0.39 give Low, 0.40 and 0.69999 give Medium, 0.70 and 1.0 give High |
| `Predictor.RiskLabelsAreLiterals` | heart_disease_api/app/models/predictor.py:86-91 | every risk level is written as one of the response's three literals, and distinct levels are written differently |
| `Predictor.PredictSucceedsOnProbability` | heart_disease_api/app/models/predictor.py:48-67 | when the classifier steps succeed and component 1 lies in [0, 1], the prediction succeeds with a probability in [0, 1] |
| `Predictor.PredictTotalForFittedArtifacts` | heart_disease_api/app/models/predictor.py:41-67 | with a scaler that keeps 13 features and a classifier that answers with a probability pair in [0, 1] and a class in {0, 1}, prediction never fails |
| `Predictor.PredictDependsOnlyOnArtifactAnswers` | heart_disease_api/app/models/predictor.py:24-67 | two predictors whose scaler and classifier answer alike on the record's vectors give the same result |
| `Predictor.FailuresArePredictionFailed` | heart_disease_api/app/models/predictor.py:69-70 | every failure message (`PredictError.Message` over `Failure.Describe`) starts with "Prediction failed: "; a scaler exception reads "Prediction failed: Preprocessing failed: " plus its text, or "Prediction failed: Missing required feature: '<key>'" for a `KeyError`; a classifier exception reads "Prediction failed: " plus its own text |
| `Predictor.DiagnosisIndependentOfProbability` | heart_disease_api/app/models/predictor.py:54-57 | a classifier answering class 1 with probability 0.2 yields a positive diagnosis with risk "Low" |
| `Predictor.RiskDisagreesWithReportedProbability` | heart_disease_api/app/models/predictor.py:60-65 | with probability 0.39996 the response reports 0.4 but risk "Low", while 0.4 is a "Medium" probability |
| `Predictor.ConsistentPredictionAgrees` | heart_disease_api/app/models/predictor.py:60-65 | on that input the corrected prediction reports 0.4 with risk "Medium" |

## Findings

| source | as written | input that shows it | evidently intended | confidence | as-written member | corrected member |
|---|---|---|---|---|---|---|
| heart_disease_api/app/models/predictor.py:60-65 | the risk level is computed from the unrounded probability, and the probability is rounded only afterwards for the response | a classifier giving component 1 = 0.39996 produces probability 0.4 with risk_level "Low" (likewise 0.69996 gives 0.7 with "Medium") | the risk level is consistent with the probability the response reports | low, not executed: the thresholds may be meant for the raw score | `Predictor.RiskDisagreesWithReportedProbability` | `Predictor.HeartDiseasePredictor.PredictConsistent` |

`Predict` keeps the behaviour as written. `PredictConsistent` buckets the
reported probability instead, and `ConsistentPredictionAgrees` shows the
corrected result on the same input.

## Left out

- Predictor.Round4: rounds exact reals half-to-even. Python's `round(x, 4)` works on the binary double nearest the value, so its results near a tie can differ. Only the properties stated in the table are claimed for it.
- IEEE-754 floating point: probabilities, `oldpeak` and thresholds are exact reals, so `0.7` and `2.3` are exact values here.
- Artifact loading (heart_disease_api/app/models/ml_model.py): reading the pickled model and scaler from disk, the file-existence checks and the "not loaded" errors are file I/O and foreign deserialisation. A `HeartDiseasePredictor` value always holds both artifacts.
- Internals of `scaler.transform`, `model.predict_proba` and `model.predict`: these are opaque functions. `FittedScaler` and `FittedClassifier` give them shape and range contracts only.
- The numpy array shapes (1, 13) and (1, 2): the model works on one row, so the `[0]` that selects the row is implicit.
- Pydantic type coercion and the wording of its error messages: validation is modelled as the declared range checks and the list of offending fields. `Failure.Describe` gives fixed stand-in texts for the index error and the response validation error.
- The configured `prediction_threshold` (heart_disease_api/app/core/config.py:27) is never read by the prediction code, so it has no counterpart here.
- HTTP routing, CORS, the mapping of errors to status codes, the health endpoints, settings and launch scripts (heart_disease_api/app/main.py, heart_disease_api/app/api/predict.py, heart_disease_api/app/api/test.py, heart_disease_api/app/core/config.py, heart_disease_api/run.py, heart_disease_api/QUICKSTART.py): transport and process plumbing, not part of this model.
