/**
 * The server's category encoders for laboratory readings (`encode_cholesterol`,
 * `encode_glucose` in app.py) and the banding of the model's risk score into a
 * risk level (inside `predict`).
 */
module RiskEncoding {

  /** `encode_cholesterol`: mg/dL to category 1 (normal), 2 (above normal) or 3 (well above normal). */
  function EncodeCholesterol(v: real): (c: int)
    ensures 1 <= c <= 3
    ensures c == 1 <==> v < 200.0
    ensures c == 2 <==> 200.0 <= v < 240.0
    ensures c == 3 <==> 240.0 <= v
  {
    if v < 200.0 then 1
    else if v < 240.0 then 2
    else 3
  }

  /** `encode_glucose`: mg/dL to category 1, 2 (100 to 125 inclusive) or 3 (above 125). */
  function EncodeGlucose(v: real): (c: int)
    ensures 1 <= c <= 3
    ensures c == 1 <==> v < 100.0
    ensures c == 2 <==> 100.0 <= v <= 125.0
    ensures c == 3 <==> 125.0 < v
  {
    if v < 100.0 then 1
    else if v <= 125.0 then 2
    else 3
  }

  /** A higher reading never gets a lower cholesterol category. */
  lemma CholesterolMonotone(v: real, w: real)
    requires v <= w
    ensures EncodeCholesterol(v) <= EncodeCholesterol(w)
  {
  }

  /** A higher reading never gets a lower glucose category. */
  lemma GlucoseMonotone(v: real, w: real)
    requires v <= w
    ensures EncodeGlucose(v) <= EncodeGlucose(w)
  {
  }

  /** The three risk levels; `Tag` is the string the server sends. */
  datatype RiskLevel = Low | Moderate | High
  {
    function Tag(): (t: string)
      ensures |t| > 0
    {
      match this
      case Low => "low"
      case Moderate => "moderate"
      case High => "high"
    }

    /** Low < Moderate < High. */
    function Severity(): (n: int)
      ensures 0 <= n <= 2
    {
      match this
      case Low => 0
      case Moderate => 1
      case High => 2
    }
  }

  /** Different levels are sent as different strings. */
  lemma TagInjective(a: RiskLevel, b: RiskLevel)
    ensures a.Tag() == b.Tag() <==> a == b
  {
    if a != b {
      assert |a.Tag()| != |b.Tag()|;
    }
  }

  /** The banding in `predict`: below 30 low, below 70 moderate, otherwise high. */
  function RiskBand(score: real): (level: RiskLevel)
    ensures level == Low <==> score < 30.0
    ensures level == Moderate <==> 30.0 <= score < 70.0
    ensures level == High <==> 70.0 <= score
  {
    if score < 30.0 then Low
    else if score < 70.0 then Moderate
    else High
  }

  /** A higher score never gets a less severe level. */
  lemma RiskBandMonotone(s: real, t: real)
    requires s <= t
    ensures RiskBand(s).Severity() <= RiskBand(t).Severity()
  {
  }
}
