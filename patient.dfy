/**
 * The patient record that the form submits and the server reads. Readings are
 * exact reals; the binary codes (gender, smoking, alcohol, activity) and the age
 * in years are integers.
 */
module Patient {

  datatype PatientInput = PatientInput(
    age: int,          // years
    gender: int,       // 1 = male, anything else = female
    height: real,      // cm
    weight: real,      // kg
    apHi: real,        // systolic pressure, mmHg
    apLo: real,        // diastolic pressure, mmHg
    cholesterol: real, // mg/dL
    gluc: real,        // fasting glucose, mg/dL
    smoke: int,        // 0/1
    alco: int,         // 0/1
    active: int)       // 0/1

  /** Real multiplication, with the sign facts the BMI rules need. */
  function Product(a: real, b: real): (r: real)
    ensures a > 0.0 && b > 0.0 ==> r > 0.0
    ensures a < 0.0 && b < 0.0 ==> r > 0.0
  {
    a * b
  }

  /** Height in metres, squared; positive for every non-zero height. */
  function HeightSquared(p: PatientInput): (h2: real)
    ensures p.height != 0.0 ==> h2 > 0.0
    ensures p.height == 0.0 ==> h2 == 0.0
  {
    Product(p.height / 100.0, p.height / 100.0)
  }

  /** Body-mass index, weight / (height in metres)^2; undefined for a zero height. */
  function Bmi(p: PatientInput): (bmi: real)
    requires p.height != 0.0
    ensures bmi * HeightSquared(p) == p.weight
    ensures bmi > 0.0 <==> p.weight > 0.0
  {
    p.weight / HeightSquared(p)
  }

  /** A JavaScript number, as far as the client's rules need one: finite, an infinity, or NaN. */
  datatype JsNumber = Finite(value: real) | Infinity(positive: bool) | NaN

  /** JavaScript's `/`: a zero divisor gives an infinity of the dividend's sign, or NaN for 0/0. */
  function JsDivide(a: real, b: real): (q: JsNumber)
    ensures b != 0.0 ==> q.Finite? && q.value * b == a
    ensures b == 0.0 ==> (q.Infinity? <==> a != 0.0)
    ensures b == 0.0 && a != 0.0 ==> (q.positive <==> a > 0.0)
    ensures b == 0.0 && a == 0.0 ==> q.NaN?
  {
    if b != 0.0 then Finite(a / b)
    else if a > 0.0 then Infinity(true)
    else if a < 0.0 then Infinity(false)
    else NaN
  }

  /** JavaScript's `x > t` for a finite threshold: false for NaN and for negative infinity. */
  predicate JsGreater(x: JsNumber, t: real)
  {
    match x
    case Finite(v) => v > t
    case Infinity(positive) => positive
    case NaN => false
  }

  /** The body-mass index as the browser computes it, for any height. */
  function ClientBmi(p: PatientInput): JsNumber
  {
    JsDivide(p.weight, HeightSquared(p))
  }

  /** For a non-zero height the browser's index is the exact one. */
  lemma ClientBmiAgrees(p: PatientInput)
    requires p.height != 0.0
    ensures ClientBmi(p) == Finite(Bmi(p))
  {
    var h2 := HeightSquared(p);
    var q := ClientBmi(p);
    assert q.value * h2 == p.weight == Bmi(p) * h2;
    assert (q.value - Bmi(p)) * h2 == 0.0;
  }
}
