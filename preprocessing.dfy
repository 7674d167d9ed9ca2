/** Feature extraction, ordering and scaling (app/utils/preprocessing.py):
    a request record becomes a thirteen-element vector in the order the
    classifier was trained on, and the fitted scaler is applied to it. */
module Preprocessing {
  import opened Wrappers
  import opened Schema

  /** The training-time feature order. */
  const FEATURE_ORDER: seq<string> :=
    ["age", "sex", "cp", "trestbps", "chol", "fbs", "restecg",
     "thalach", "exang", "oldpeak", "slope", "ca", "thal"]

  /** An exception the scaler raises. Its class matters: preprocessing
      handles a `KeyError` apart from every other exception. */
  datatype Raised = KeyError(key: string) | OtherException(text: string) {
    /** The exception as text; a `KeyError` shows its key in quotes. */
    function Str(): string {
      match this
      case KeyError(key) => "'" + key + "'"
      case OtherException(text) => text
    }
  }

  /** The fitted scaler. `transform` returns the scaled row, or the
      exception it raised. */
  datatype Scaler = Scaler(transform: seq<real> -> Result<seq<real>, Raised>)

  /** The two ways preprocessing fails. */
  datatype PreprocessError =
    | MissingRequiredFeature(key: string)
    | PreprocessingFailed(detail: string)
  {
    /** The message of the error preprocessing raises. */
    function Message(): string {
      match this
      case MissingRequiredFeature(key) => "Missing required feature: '" + key + "'"
      case PreprocessingFailed(detail) => "Preprocessing failed: " + detail
    }
  }

  /** The error preprocessing raises for an exception from the scaler: a
      `KeyError` is reported as a missing feature, anything else as a
      preprocessing failure, each followed by the exception's text. */
  function PreprocessFailure(e: Raised): (p: PreprocessError)
    ensures e.KeyError? ==> p == MissingRequiredFeature(e.key)
    ensures e.OtherException? ==> p == PreprocessingFailed(e.text)
    ensures p.Message() ==
      (if e.KeyError? then "Missing required feature: " else "Preprocessing failed: ") + e.Str()
  {
    match e
    case KeyError(key) =>
      assert MissingRequiredFeature(key).Message()
        == "Missing required feature: " + ("'" + key + "'");
      MissingRequiredFeature(key)
    case OtherException(text) => PreprocessingFailed(text)
  }

  /** The record as a dictionary from field name to value (the integer
      fields already widened to reals, as the float64 array holds them). */
  function ModelDump(data: HeartDiseaseInput): (d: map<string, real>)
    ensures forall f :: FieldName(f) in d && d[FieldName(f)] == data.Get(f)
  {
    map[
      "age" := data.age as real, "sex" := data.sex as real, "cp" := data.cp as real,
      "trestbps" := data.trestbps as real, "chol" := data.chol as real,
      "fbs" := data.fbs as real, "restecg" := data.restecg as real,
      "thalach" := data.thalach as real, "exang" := data.exang as real,
      "oldpeak" := data.oldpeak, "slope" := data.slope as real,
      "ca" := data.ca as real, "thal" := data.thal as real]
  }

  /** Looks up every name of `names` in `d`, in order; the first name that
      is not a key stops the extraction and is reported. */
  function Gather(d: map<string, real>, names: seq<string>): (r: Result<seq<real>, string>)
    ensures r.Ok? <==> forall n :: n in names ==> n in d
    ensures r.Ok? ==> |r.value| == |names|
    ensures r.Ok? ==> forall i :: 0 <= i < |names| ==> r.value[i] == d[names[i]]
    ensures r.Err? ==> exists k :: (0 <= k < |names| && names[k] == r.error && r.error !in d
      && forall j :: 0 <= j < k ==> names[j] in d)
  {
    if names == [] then Ok([])
    else if names[0] !in d then Err(names[0])
    else
      match Gather(d, names[1..])
      case Ok(rest) => Ok([d[names[0]]] + rest)
      case Err(key) =>
        ghost var k :| 0 <= k < |names[1..]| && names[1..][k] == key && key !in d
          && forall j :: 0 <= j < k ==> names[1..][j] in d;
        assert names[k + 1] == key;
        Err(key)
  }

  /** The steps of preprocessing after the record has been dumped to a
      dictionary: extract in FEATURE_ORDER, then scale exactly once. A
      missing name stops before the scaler; the scaler's own exception is
      handled by its class. */
  function PreprocessDict(d: map<string, real>, scaler: Scaler): (r: Result<seq<real>, PreprocessError>)
    ensures (exists n :: n in FEATURE_ORDER && n !in d) ==>
      && r.Err? && r.error.MissingRequiredFeature?
      && exists k :: (0 <= k < |FEATURE_ORDER| && FEATURE_ORDER[k] == r.error.key && r.error.key !in d
        && forall j :: 0 <= j < k ==> FEATURE_ORDER[j] in d)
    ensures (forall n :: n in FEATURE_ORDER ==> n in d) ==>
      var features := seq(|FEATURE_ORDER|, i requires 0 <= i < |FEATURE_ORDER| => d[FEATURE_ORDER[i]]);
      match scaler.transform(features)
      case Ok(scaled) => r == Ok(scaled)
      case Err(e) => r == Err(PreprocessFailure(e))
  {
    match Gather(d, FEATURE_ORDER)
    case Err(key) => Err(MissingRequiredFeature(key))
    case Ok(features) =>
      assert features == seq(|FEATURE_ORDER|, i requires 0 <= i < |FEATURE_ORDER| => d[FEATURE_ORDER[i]]);
      match scaler.transform(features)
      case Ok(scaled) => Ok(scaled)
      case Err(e) => Err(PreprocessFailure(e))
  }

  /** The feature vector of a record: position `i` holds the field named
      `FEATURE_ORDER[i]`. */
  function FeatureVector(data: HeartDiseaseInput): (v: seq<real>)
    ensures |v| == |FEATURE_ORDER| == |FIELDS| == 13
    ensures forall i :: 0 <= i < 13 ==> v[i] == data.Get(FIELDS[i])
  {
    FeatureOrderMatchesSchema();
    var d := ModelDump(data);
    seq(13, i requires 0 <= i < 13 => d[FEATURE_ORDER[i]])
  }

  /** Preprocessing of a record: the scaler applied once to its feature
      vector. A dumped record always has every key, so a missing-feature
      error can only come from a `KeyError` the scaler raises. */
  function PreprocessInput(data: HeartDiseaseInput, scaler: Scaler): (r: Result<seq<real>, PreprocessError>)
    ensures scaler.transform(FeatureVector(data)).Ok? ==>
      r == Ok(scaler.transform(FeatureVector(data)).value)
    ensures scaler.transform(FeatureVector(data)).Err? ==>
      r == Err(PreprocessFailure(scaler.transform(FeatureVector(data)).error))
  {
    FeatureOrderMatchesSchema();
    var d := ModelDump(data);
    assert forall n :: n in FEATURE_ORDER ==> n in d;
    var r := PreprocessDict(d, scaler);
    assert seq(|FEATURE_ORDER|, i requires 0 <= i < |FEATURE_ORDER| => d[FEATURE_ORDER[i]])
      == FeatureVector(data);
    r
  }

  /** The check that a list of names is exactly the training-time order. */
  function ValidateFeatureOrder(features: seq<string>): (b: bool)
    ensures b <==> (|features| == |FEATURE_ORDER|
      && forall i :: 0 <= i < |features| ==> features[i] == FEATURE_ORDER[i])
  {
    features == FEATURE_ORDER
  }

  /** FEATURE_ORDER lists the schema's fields by name, in declaration order. */
  lemma FeatureOrderMatchesSchema()
    ensures |FEATURE_ORDER| == |FIELDS| == 13
    ensures forall i :: 0 <= i < 13 ==> FEATURE_ORDER[i] == FieldName(FIELDS[i])
  {
  }

  /** FEATURE_ORDER has thirteen pairwise-distinct names, and they are
      exactly the keys of a dumped record. */
  lemma FeatureOrderDistinct(data: HeartDiseaseInput)
    ensures |FEATURE_ORDER| == 13
    ensures forall i, j :: 0 <= i < j < 13 ==> FEATURE_ORDER[i] != FEATURE_ORDER[j]
    ensures (set n | n in FEATURE_ORDER) == ModelDump(data).Keys
  {
  }

  /** Named positions of the feature vector. */
  lemma FeatureVectorPositions(data: HeartDiseaseInput)
    ensures FeatureVector(data)[0] == data.age as real
    ensures FeatureVector(data)[9] == data.oldpeak
    ensures FeatureVector(data)[12] == data.thal as real
  {
  }

  /** The vector keeps every field: different records give different vectors. */
  lemma FeatureVectorInjective(a: HeartDiseaseInput, b: HeartDiseaseInput)
    requires FeatureVector(a) == FeatureVector(b)
    ensures a == b
  {
    var va, vb := FeatureVector(a), FeatureVector(b);
    assert va[0] == vb[0] && va[1] == vb[1] && va[2] == vb[2] && va[3] == vb[3];
    assert va[4] == vb[4] && va[5] == vb[5] && va[6] == vb[6] && va[7] == vb[7];
    assert va[8] == vb[8] && va[9] == vb[9] && va[10] == vb[10] && va[11] == vb[11];
    assert va[12] == vb[12];
  }

  /** A dictionary missing any feature name is reported, and nothing is
      scaled: the error names an absent FEATURE_ORDER name in its message. */
  lemma MissingFeatureReported(d: map<string, real>, scaler: Scaler, n: string)
    requires n in FEATURE_ORDER && n !in d
    ensures PreprocessDict(d, scaler).Err?
    ensures PreprocessDict(d, scaler).error.MissingRequiredFeature?
    ensures var key := PreprocessDict(d, scaler).error.key;
      && key in FEATURE_ORDER && key !in d
      && PreprocessDict(d, scaler).error.Message() == "Missing required feature: '" + key + "'"
  {
  }

  /** The name reported is the first absent one in FEATURE_ORDER. */
  lemma FirstMissingFeatureReported(d: map<string, real>, scaler: Scaler, i: nat)
    requires i < |FEATURE_ORDER| && FEATURE_ORDER[i] !in d
    requires forall j :: 0 <= j < i ==> FEATURE_ORDER[j] in d
    ensures PreprocessDict(d, scaler) == Err(MissingRequiredFeature(FEATURE_ORDER[i]))
    ensures PreprocessDict(d, scaler).error.Message()
      == "Missing required feature: '" + FEATURE_ORDER[i] + "'"
  {
    var r := PreprocessDict(d, scaler);
    assert FEATURE_ORDER[i] in FEATURE_ORDER;
    var k :| 0 <= k < |FEATURE_ORDER| && FEATURE_ORDER[k] == r.error.key && r.error.key !in d
      && forall j :: 0 <= j < k ==> FEATURE_ORDER[j] in d;
    assert k == i;
  }

  /** Swapping any two positions of FEATURE_ORDER breaks the order check. */
  lemma SwapBreaksFeatureOrder(i: nat, j: nat)
    requires i < j < |FEATURE_ORDER|
    ensures !ValidateFeatureOrder(FEATURE_ORDER[i := FEATURE_ORDER[j]][j := FEATURE_ORDER[i]])
  {
  }
}
