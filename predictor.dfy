/** The prediction workflow (app/models/predictor.py): preprocess the
    record, ask the classifier for its class probabilities and its discrete
    class, bucket the probability into a risk level, and assemble the
    response. Every failure on the way surfaces as one "Prediction failed"
    error. */
module Predictor {
  import opened Wrappers
  import opened Schema
  import opened Preprocessing

  /** The trained classifier, on one scaled row. `predictProba` gives the
      class-probability row, `predict` the discrete class; each may instead
      return the text of the exception it raised. */
  datatype Classifier = Classifier(
    predictProba: seq<real> -> Result<seq<real>, string>,
    predict: seq<real> -> Result<int, string>)

  /** Risk categories, ordered Low < Medium < High. */
  datatype RiskLevel = Low | Medium | High {
    /** The literal written into a response. */
    function Label(): string {
      match this
      case Low => "Low"
      case Medium => "Medium"
      case High => "High"
    }

    /** Position in the order Low < Medium < High. */
    function Rank(): nat {
      match this
      case Low => 0
      case Medium => 1
      case High => 2
    }
  }

  /** Risk bucketing with the fixed thresholds 0.4 and 0.7. */
  function GetRiskLevel(probability: real): (r: RiskLevel)
    ensures r == High <==> probability >= 0.7
    ensures r == Medium <==> 0.4 <= probability < 0.7
    ensures r == Low <==> probability < 0.4
  {
    if probability >= 0.7 then High
    else if probability >= 0.4 then Medium
    else Low
  }

  /** `x` is a whole number of ten-thousandths. */
  predicate FourDecimals(x: real) {
    (x * 10000.0).Floor as real == x * 10000.0
  }

  /** The integer nearest to `s`, halves going to the even neighbour. */
  function RoundHalfEven(s: real): (m: int)
    ensures s - 0.5 <= m as real <= s + 0.5
    ensures 0.0 <= s ==> 0 <= m
    ensures s <= 10000.0 ==> m <= 10000
    ensures s.Floor as real == s ==> m as real == s
  {
    var n := s.Floor;
    var frac := s - n as real;
    if frac > 0.5 || (frac == 0.5 && n % 2 == 1) then n + 1 else n
  }

  /** Rounding to four decimal places, halves to the even neighbour, on
      exact reals. */
  function Round4(x: real): (r: real)
    ensures FourDecimals(r)
    ensures x - 0.00005 <= r <= x + 0.00005
    ensures 0.0 <= x <= 1.0 ==> 0.0 <= r <= 1.0
    ensures FourDecimals(x) ==> r == x
  {
    var m := RoundHalfEven(x * 10000.0);
    var r := m as real / 10000.0;
    assert r * 10000.0 == m as real;
    assert (m as real).Floor == m;
    r
  }

  /** The prefix of every error message `predict` raises. */
  const PREDICTION_FAILED: string := "Prediction failed: "

  /** The single error `predict` raises; `cause` is what went wrong inside. */
  datatype PredictError = PredictionFailed(cause: Failure) {
    function Message(): string {
      PREDICTION_FAILED + cause.Describe()
    }
  }

  /** What can go wrong inside `predict`. */
  datatype Failure =
    | Preprocess(error: PreprocessError)
    | ClassifierRaised(detail: string)
    | NoPositiveClass(classes: nat)
    | OutputRejected(fields: seq<string>)
  {
    function Describe(): string {
      match this
      case Preprocess(e) => e.Message()
      case ClassifierRaised(detail) => detail
      case NoPositiveClass(_) => "index 1 is out of bounds for axis 0"
      case OutputRejected(_) => "validation error for HeartDiseasePrediction"
    }
  }

  /** The predictor: the fitted classifier and scaler, fixed at construction
      and only read afterwards. */
  datatype HeartDiseasePredictor = HeartDiseasePredictor(model: Classifier, scaler: Scaler)
  {
    /** The classifier steps of a prediction: preprocess, take component 1
        of the probability row, take the discrete class. On success, the
        diagnosis (class equals 1) and the unrounded probability. */
    function Infer(data: HeartDiseaseInput): (r: Result<(bool, real), PredictError>)
      ensures r.Ok? <==> InferSucceeds(data)
      ensures r.Ok? ==>
        var s := scaler.transform(FeatureVector(data)).value;
        && r.value.0 == (model.predict(s).value == 1)
        && r.value.1 == model.predictProba(s).value[1]
      ensures scaler.transform(FeatureVector(data)).Err? ==>
        r == Err(PredictionFailed(Preprocess(PreprocessFailure(scaler.transform(FeatureVector(data)).error))))
      ensures var t := scaler.transform(FeatureVector(data));
        t.Ok? && model.predictProba(t.value).Err? ==>
          r == Err(PredictionFailed(ClassifierRaised(model.predictProba(t.value).error)))
      ensures var t := scaler.transform(FeatureVector(data));
        t.Ok? && model.predictProba(t.value).Ok? && |model.predictProba(t.value).value| < 2 ==>
          r == Err(PredictionFailed(NoPositiveClass(|model.predictProba(t.value).value|)))
      ensures var t := scaler.transform(FeatureVector(data));
        t.Ok? && model.predictProba(t.value).Ok? && |model.predictProba(t.value).value| >= 2
          && model.predict(t.value).Err? ==>
          r == Err(PredictionFailed(ClassifierRaised(model.predict(t.value).error)))
      ensures InferSucceeds(data) || scaler.transform(FeatureVector(data)).Err?
        || (r.Err? && (r.error.cause.ClassifierRaised? || r.error.cause.NoPositiveClass?))
    {
      match PreprocessInput(data, scaler)
      case Err(e) => Err(PredictionFailed(Preprocess(e)))
      case Ok(features) =>
        match model.predictProba(features)
        case Err(e) => Err(PredictionFailed(ClassifierRaised(e)))
        case Ok(row) =>
          if |row| < 2 then Err(PredictionFailed(NoPositiveClass(|row|)))
          else
            var probability := row[1];
            match model.predict(features)
            case Err(e) => Err(PredictionFailed(ClassifierRaised(e)))
            case Ok(predictionClass) => Ok((predictionClass == 1, probability))
    }

    /** The scaler and both classifier calls return normally, and the
        probability row has an entry for the positive class. */
    ghost predicate InferSucceeds(data: HeartDiseaseInput) {
      var t := scaler.transform(FeatureVector(data));
      && t.Ok?
      && model.predictProba(t.value).Ok?
      && |model.predictProba(t.value).value| >= 2
      && model.predict(t.value).Ok?
    }

    /** One prediction. On success the response holds the diagnosis, the
        probability rounded to four places, and the risk level of the
        UNROUNDED probability; it fails when a classifier step fails or the
        response rejects the rounded probability. */
    function Predict(data: HeartDiseaseInput): (r: Result<HeartDiseasePrediction, PredictError>)
      ensures r.Ok? ==> r.value.Valid()
      ensures r.Ok? <==> Infer(data).Ok? && 0.0 <= Round4(Infer(data).value.1) <= 1.0
      ensures r.Ok? ==>
        var (hasDisease, p) := Infer(data).value;
        r.value == HeartDiseasePrediction(hasDisease, Round4(p), GetRiskLevel(p).Label())
      ensures Infer(data).Err? ==> r == Err(Infer(data).error)
    {
      match Infer(data)
      case Err(e) => Err(e)
      case Ok((hasDisease, probability)) =>
        var riskLevel := GetRiskLevel(probability);
        match MakePrediction(hasDisease, Round4(probability), riskLevel.Label())
        case Err(fields) => Err(PredictionFailed(OutputRejected(fields)))
        case Ok(response) => Ok(response)
    }

    /** A prediction whose risk level is computed from the probability it
        reports, so the two never disagree. */
    function PredictConsistent(data: HeartDiseaseInput): (r: Result<HeartDiseasePrediction, PredictError>)
      ensures r.Ok? ==> r.value.Valid()
      ensures r.Ok? ==> r.value.riskLevel == GetRiskLevel(r.value.probability).Label()
      ensures r.Ok? <==> Predict(data).Ok?
      ensures r.Ok? ==>
        && r.value.prediction == Predict(data).value.prediction
        && r.value.probability == Predict(data).value.probability
      ensures r.Err? ==> r == Predict(data)
    {
      match Infer(data)
      case Err(e) => Err(e)
      case Ok((hasDisease, probability)) =>
        var reported := Round4(probability);
        match MakePrediction(hasDisease, reported, GetRiskLevel(reported).Label())
        case Err(fields) => Err(PredictionFailed(OutputRejected(fields)))
        case Ok(response) => Ok(response)
    }
  }

  /** The scaler returns a thirteen-feature row for every thirteen-feature row. */
  ghost predicate FittedScaler(scaler: Scaler) {
    forall v: seq<real> {:trigger scaler.transform(v)} :: |v| == 13 ==>
      scaler.transform(v).Ok? && |scaler.transform(v).value| == 13
  }

  /** On every thirteen-feature row the classifier returns a probability
      pair of values in [0, 1] and a class in {0, 1}. */
  ghost predicate FittedClassifier(model: Classifier) {
    forall v: seq<real> {:trigger model.predictProba(v)} :: |v| == 13 ==>
      && model.predictProba(v).Ok?
      && |model.predictProba(v).value| == 2
      && 0.0 <= model.predictProba(v).value[0] <= 1.0
      && 0.0 <= model.predictProba(v).value[1] <= 1.0
      && model.predict(v).Ok?
      && (model.predict(v).value == 0 || model.predict(v).value == 1)
  }

  /** Risk levels are monotone in the probability. */
  lemma RiskLevelMonotone(p: real, q: real)
    requires p <= q
    ensures GetRiskLevel(p).Rank() <= GetRiskLevel(q).Rank()
  {
  }

  /** The boundary values of the risk buckets. */
  lemma RiskLevelBoundaries()
    ensures GetRiskLevel(0.0) == Low && GetRiskLevel(0.39) == Low
    ensures GetRiskLevel(0.40) == Medium && GetRiskLevel(0.69999) == Medium
    ensures GetRiskLevel(0.70) == High && GetRiskLevel(1.0) == High
  {
  }

  /** Every risk level is written as one of the response's literals, and
      different levels are written differently. */
  lemma RiskLabelsAreLiterals(a: RiskLevel, b: RiskLevel)
    ensures a.Label() in RISK_LEVELS
    ensures a.Label() == b.Label() <==> a == b
  {
  }

  /** A well-formed classifier answer is always accepted by the response:
      when every step succeeds and component 1 lies in [0, 1], the
      prediction succeeds, and its probability lies in [0, 1]. */
  lemma PredictSucceedsOnProbability(pred: HeartDiseasePredictor, data: HeartDiseaseInput)
    requires pred.InferSucceeds(data)
    requires var s := pred.scaler.transform(FeatureVector(data)).value;
      0.0 <= pred.model.predictProba(s).value[1] <= 1.0
    ensures pred.Predict(data).Ok?
    ensures 0.0 <= pred.Predict(data).value.probability <= 1.0
  {
  }

  /** With fitted artifacts a prediction never fails, whatever the record. */
  lemma PredictTotalForFittedArtifacts(pred: HeartDiseasePredictor, data: HeartDiseaseInput)
    requires FittedScaler(pred.scaler) && FittedClassifier(pred.model)
    ensures pred.Predict(data).Ok?
  {
  }

  /** No hidden state: two predictors whose scaler and classifier answer the
      same on this record's vectors give the same result. */
  lemma PredictDependsOnlyOnArtifactAnswers(a: HeartDiseasePredictor, b: HeartDiseasePredictor, data: HeartDiseaseInput)
    requires a.scaler.transform(FeatureVector(data)) == b.scaler.transform(FeatureVector(data))
    requires var t := a.scaler.transform(FeatureVector(data));
      t.Ok? ==>
        && a.model.predictProba(t.value) == b.model.predictProba(t.value)
        && a.model.predict(t.value) == b.model.predict(t.value)
    ensures a.Predict(data) == b.Predict(data)
  {
  }

  /** Every failure is the one "Prediction failed" error, and the message
      of the exception that caused it follows that prefix: the scaler's
      exception as preprocessing reports it, or the classifier's own text. */
  lemma FailuresArePredictionFailed(pred: HeartDiseasePredictor, data: HeartDiseaseInput)
    ensures pred.Predict(data).Err? ==>
      var m := pred.Predict(data).error.Message();
      |m| >= |PREDICTION_FAILED| && m[..|PREDICTION_FAILED|] == PREDICTION_FAILED
    ensures var t := pred.scaler.transform(FeatureVector(data));
      t.Err? && t.error.OtherException? ==>
        pred.Predict(data).error.Message()
          == PREDICTION_FAILED + "Preprocessing failed: " + t.error.text
    ensures var t := pred.scaler.transform(FeatureVector(data));
      t.Err? && t.error.KeyError? ==>
        pred.Predict(data).error.Message()
          == PREDICTION_FAILED + "Missing required feature: '" + t.error.key + "'"
    ensures var t := pred.scaler.transform(FeatureVector(data));
      t.Ok? && pred.model.predictProba(t.value).Err? ==>
        pred.Predict(data).error.Message()
          == PREDICTION_FAILED + pred.model.predictProba(t.value).error
    ensures var t := pred.scaler.transform(FeatureVector(data));
      t.Ok? && pred.model.predictProba(t.value).Ok? && |pred.model.predictProba(t.value).value| >= 2
        && pred.model.predict(t.value).Err? ==>
        pred.Predict(data).error.Message()
          == PREDICTION_FAILED + pred.model.predict(t.value).error
  {
    var r := pred.Predict(data);
    if r.Err? {
      var tail := r.error.cause.Describe();
      assert r.error.Message() == PREDICTION_FAILED + tail;
      assert (PREDICTION_FAILED + tail)[..|PREDICTION_FAILED|] == PREDICTION_FAILED;
    }
  }

  /** The identity scaler. */
  const IDENTITY: Scaler := Scaler(v => Ok(v))

  /** The diagnosis follows the classifier's class, not the probability:
      class 1 with probability 0.2 gives a positive, low-risk response. */
  lemma DiagnosisIndependentOfProbability()
    ensures HeartDiseasePredictor(Classifier(v => Ok([0.8, 0.2]), v => Ok(1)), IDENTITY).Predict(EXAMPLE)
      == Ok(HeartDiseasePrediction(true, 0.2, "Low"))
  {
  }

  /** As written, the risk level is computed before rounding: a probability
      of 0.39996 is reported as 0.4, yet with risk "Low", although 0.4 is a
      "Medium" probability. */
  lemma RiskDisagreesWithReportedProbability()
    ensures HeartDiseasePredictor(Classifier(v => Ok([0.60004, 0.39996]), v => Ok(0)), IDENTITY).Predict(EXAMPLE)
      == Ok(HeartDiseasePrediction(false, 0.4, "Low"))
    ensures GetRiskLevel(0.4) == Medium
  {
  }

  /** The consistent prediction on the same input reports 0.4 with "Medium". */
  lemma ConsistentPredictionAgrees()
    ensures HeartDiseasePredictor(Classifier(v => Ok([0.60004, 0.39996]), v => Ok(0)), IDENTITY).PredictConsistent(EXAMPLE)
      == Ok(HeartDiseasePrediction(false, 0.4, "Medium"))
  {
  }
}
