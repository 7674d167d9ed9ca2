/** The request and response records of the prediction service
    (app/schemas/heart.py): thirteen clinical fields with the inclusive
    bounds the request schema declares, and the output record with its
    probability range and risk-level literals. */
module Schema {
  import opened Wrappers

  /** The thirteen clinical fields of a request. */
  datatype Field =
    | Age | Sex | Cp | Trestbps | Chol | Fbs | Restecg
    | Thalach | Exang | Oldpeak | Slope | Ca | Thal

  /** The fields in the order the request schema declares them. */
  const FIELDS: seq<Field> :=
    [Age, Sex, Cp, Trestbps, Chol, Fbs, Restecg, Thalach, Exang, Oldpeak, Slope, Ca, Thal]

  /** The field's name in requests and in the dumped dictionary. */
  function FieldName(f: Field): string {
    match f
    case Age => "age"
    case Sex => "sex"
    case Cp => "cp"
    case Trestbps => "trestbps"
    case Chol => "chol"
    case Fbs => "fbs"
    case Restecg => "restecg"
    case Thalach => "thalach"
    case Exang => "exang"
    case Oldpeak => "oldpeak"
    case Slope => "slope"
    case Ca => "ca"
    case Thal => "thal"
  }

  /** Inclusive bounds: the `ge` and `le` of a field declaration. */
  datatype Range = Range(lo: int, hi: int)

  /** The bounds declared for each field. */
  function Bound(f: Field): Range {
    match f
    case Age => Range(1, 120)
    case Sex => Range(0, 1)
    case Cp => Range(0, 3)
    case Trestbps => Range(50, 250)
    case Chol => Range(100, 600)
    case Fbs => Range(0, 1)
    case Restecg => Range(0, 2)
    case Thalach => Range(50, 250)
    case Exang => Range(0, 1)
    case Oldpeak => Range(0, 10)
    case Slope => Range(0, 2)
    case Ca => Range(0, 4)
    case Thal => Range(0, 3)
  }

  /** A request record: twelve integer fields and the real-valued `oldpeak`. */
  datatype HeartDiseaseInput = HeartDiseaseInput(
    age: int, sex: int, cp: int, trestbps: int, chol: int, fbs: int, restecg: int,
    thalach: int, exang: int, oldpeak: real, slope: int, ca: int, thal: int)
  {
    /** The value of field `f`, widened to a real as the feature vector holds it. */
    function Get(f: Field): real {
      match f
      case Age => age as real
      case Sex => sex as real
      case Cp => cp as real
      case Trestbps => trestbps as real
      case Chol => chol as real
      case Fbs => fbs as real
      case Restecg => restecg as real
      case Thalach => thalach as real
      case Exang => exang as real
      case Oldpeak => oldpeak
      case Slope => slope as real
      case Ca => ca as real
      case Thal => thal as real
    }

    /** Field `f` lies within its declared bounds; no other field is consulted. */
    predicate FieldOk(f: Field) {
      Bound(f).lo as real <= Get(f) <= Bound(f).hi as real
    }

    /** The record is accepted: the thirteen per-field checks all hold. */
    predicate Valid() {
      && FieldOk(Age) && FieldOk(Sex) && FieldOk(Cp) && FieldOk(Trestbps)
      && FieldOk(Chol) && FieldOk(Fbs) && FieldOk(Restecg) && FieldOk(Thalach)
      && FieldOk(Exang) && FieldOk(Oldpeak) && FieldOk(Slope) && FieldOk(Ca)
      && FieldOk(Thal)
    }
  }

  /** The record shown as the schema's documented example. */
  const EXAMPLE: HeartDiseaseInput :=
    HeartDiseaseInput(63, 1, 3, 145, 233, 1, 0, 150, 0, 2.3, 0, 0, 1)

  /** The fields of `fs` that `rec` violates, in the order of `fs`. */
  function ViolationsIn(rec: HeartDiseaseInput, fs: seq<Field>): (r: seq<Field>)
    ensures |r| <= |fs|
    ensures multiset(r) <= multiset(fs)
    ensures forall f :: f in r <==> f in fs && !rec.FieldOk(f)
  {
    if fs == [] then []
    else
      assert fs == [fs[0]] + fs[1..];
      if rec.FieldOk(fs[0]) then ViolationsIn(rec, fs[1..])
      else [fs[0]] + ViolationsIn(rec, fs[1..])
  }

  /** Every field, in declaration order, that `rec` violates: a failed
      validation reports all of them, not only the first. */
  function Violations(rec: HeartDiseaseInput): (r: seq<Field>)
    ensures forall f :: f in r <==> !rec.FieldOk(f)
  {
    AllFieldsDeclared();
    ViolationsIn(rec, FIELDS)
  }

  /** Validation of a request: the record itself when every field is in
      range, otherwise the complete list of offending fields. */
  function Validate(rec: HeartDiseaseInput): (r: Result<HeartDiseaseInput, seq<Field>>)
    ensures r.Ok? <==> rec.Valid()
    ensures r.Ok? ==> r.value == rec
    ensures r.Err? ==> r.error != [] && forall f :: f in r.error <==> !rec.FieldOk(f)
  {
    ValidIffEveryField(rec);
    var bad := Violations(rec);
    assert bad != [] ==> bad[0] in bad;
    if bad == [] then Ok(rec) else Err(bad)
  }

  /** Every field appears in the declaration order. */
  lemma AllFieldsDeclared()
    ensures forall f :: f in FIELDS
  {
    forall f ensures f in FIELDS {
      var i :=
        match f
        case Age => 0 case Sex => 1 case Cp => 2 case Trestbps => 3
        case Chol => 4 case Fbs => 5 case Restecg => 6 case Thalach => 7
        case Exang => 8 case Oldpeak => 9 case Slope => 10 case Ca => 11
        case Thal => 12;
      assert FIELDS[i] == f;
    }
  }

  /** Validity is exactly "every field within its own bounds", and the
      list of violations is empty exactly for valid records. */
  lemma ValidIffEveryField(rec: HeartDiseaseInput)
    ensures rec.Valid() <==> forall f :: rec.FieldOk(f)
    ensures rec.Valid() <==> Violations(rec) == []
  {
    if rec.Valid() {
      forall f ensures rec.FieldOk(f) {
        match f
        case Age =>
        case Sex =>
        case Cp =>
        case Trestbps =>
        case Chol =>
        case Fbs =>
        case Restecg =>
        case Thalach =>
        case Exang =>
        case Oldpeak =>
        case Slope =>
        case Ca =>
        case Thal =>
      }
    }
    if Violations(rec) != [] {
      assert Violations(rec)[0] in Violations(rec);
    }
  }

  /** A field's check reads only that field: a record that agrees with a
      valid record everywhere except on field `f` is valid exactly when its
      own `f` is within bounds. */
  lemma FieldChecksAreIndependent(a: HeartDiseaseInput, b: HeartDiseaseInput, f: Field)
    requires a.Valid()
    requires forall g :: g != f ==> a.Get(g) == b.Get(g)
    ensures b.Valid() <==> b.FieldOk(f)
  {
  }

  /** `age` is accepted exactly on 1..120: 0 and 121 are rejected, and a
      valid record stays valid with age 1 or 120. */
  lemma AgeBounds(rec: HeartDiseaseInput)
    ensures rec.FieldOk(Age) <==> 1 <= rec.age <= 120
    ensures !rec.(age := 0).Valid() && !rec.(age := 121).Valid()
    ensures rec.Valid() ==> rec.(age := 1).Valid() && rec.(age := 120).Valid()
  {
  }

  /** `sex`, `fbs` and `exang` are accepted exactly when they are 0 or 1. */
  lemma BinaryFieldBounds(rec: HeartDiseaseInput)
    ensures rec.FieldOk(Sex) <==> rec.sex == 0 || rec.sex == 1
    ensures rec.FieldOk(Fbs) <==> rec.fbs == 0 || rec.fbs == 1
    ensures rec.FieldOk(Exang) <==> rec.exang == 0 || rec.exang == 1
  {
  }

  /** Ranges of the small categorical fields. */
  lemma CategoricalFieldBounds(rec: HeartDiseaseInput)
    ensures rec.FieldOk(Cp) <==> 0 <= rec.cp <= 3
    ensures rec.FieldOk(Thal) <==> 0 <= rec.thal <= 3
    ensures rec.FieldOk(Restecg) <==> 0 <= rec.restecg <= 2
    ensures rec.FieldOk(Slope) <==> 0 <= rec.slope <= 2
    ensures rec.FieldOk(Ca) <==> 0 <= rec.ca <= 4
  {
  }

  /** Ranges of the measurement fields. */
  lemma MeasurementFieldBounds(rec: HeartDiseaseInput)
    ensures rec.FieldOk(Trestbps) <==> 50 <= rec.trestbps <= 250
    ensures rec.FieldOk(Thalach) <==> 50 <= rec.thalach <= 250
    ensures rec.FieldOk(Chol) <==> 100 <= rec.chol <= 600
  {
  }

  /** `oldpeak`, the one real-valued field, is accepted on [0, 10]. */
  lemma OldpeakBounds(rec: HeartDiseaseInput)
    ensures rec.FieldOk(Oldpeak) <==> 0.0 <= rec.oldpeak <= 10.0
  {
  }

  /** The documented example passes validation unchanged. */
  lemma ExampleIsValid()
    ensures EXAMPLE.Valid()
    ensures Validate(EXAMPLE) == Ok(EXAMPLE)
  {
    assert EXAMPLE.Valid();
  }

  /** The literals a response's `risk_level` may take. */
  const RISK_LEVELS: seq<string> := ["Low", "Medium", "High"]

  /** A response record, as serialised. */
  datatype HeartDiseasePrediction = HeartDiseasePrediction(
    prediction: bool, probability: real, riskLevel: string)
  {
    /** The response schema's invariants. */
    predicate Valid() {
      0.0 <= probability <= 1.0 && riskLevel in RISK_LEVELS
    }
  }

  /** Construction of a response record, which validates the probability
      bound and the risk-level literal and names each offending field. */
  function MakePrediction(prediction: bool, probability: real, riskLevel: string)
    : (r: Result<HeartDiseasePrediction, seq<string>>)
    ensures r.Ok? <==> 0.0 <= probability <= 1.0 && riskLevel in RISK_LEVELS
    ensures r.Ok? ==> r.value.Valid()
    ensures r.Ok? ==> r.value == HeartDiseasePrediction(prediction, probability, riskLevel)
    ensures r.Err? ==>
      && ("probability" in r.error <==> !(0.0 <= probability <= 1.0))
      && ("risk_level" in r.error <==> riskLevel !in RISK_LEVELS)
  {
    var bad :=
      (if 0.0 <= probability <= 1.0 then [] else ["probability"])
      + (if riskLevel in RISK_LEVELS then [] else ["risk_level"]);
    if bad == [] then Ok(HeartDiseasePrediction(prediction, probability, riskLevel))
    else Err(bad)
  }
}
