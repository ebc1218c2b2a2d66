/**
 * What the client shows for a successful prediction (`displayResult` in app.js)
 * and the labels the PDF report derives from the record and the level: the risk
 * label, the rounded percentages, the circular indicator's offset, the level's
 * colour, and the Male/Female and Yes/No renderings.
 */
module Presentation {
  import opened Wrappers
  import opened Text

  /** The fields of the server's success body that the client reads. */
  datatype PredictionResult = PredictionResult(
    riskLevel: string,
    riskScore: real,
    confidence: real,
    explanation: string,
    timestamp: Option<string>)

  // Numbers as text

  /** The digit character of a value in 0..9. */
  function DigitChar(d: nat): (c: char)
    requires d < 10
    ensures '0' <= c <= '9' && (c as int) - ('0' as int) == d
  {
    ('0' as int + d) as char
  }

  /** The value of a digit character. */
  function DigitValue(c: char): nat
    requires '0' <= c <= '9'
  {
    (c as int) - ('0' as int)
  }

  /** Decimal digits of a natural number, most significant first, without leading zeros. */
  function Decimal(n: nat): (s: string)
    ensures |s| > 0
    ensures forall i :: 0 <= i < |s| ==> '0' <= s[i] <= '9'
    ensures |s| > 1 ==> s[0] != '0'
  {
    if n < 10 then [DigitChar(n)] else Decimal(n / 10) + [DigitChar(n % 10)]
  }

  /** The number a string of digits denotes. */
  function DecimalValue(s: string): nat
    requires forall i :: 0 <= i < |s| ==> '0' <= s[i] <= '9'
  {
    if s == [] then 0 else DecimalValue(s[..|s| - 1]) * 10 + DigitValue(s[|s| - 1])
  }

  /** Reading the digits back gives the number. */
  lemma {:induction false} DecimalRoundTrip(n: nat)
    ensures DecimalValue(Decimal(n)) == n
  {
    if n >= 10 {
      DecimalRoundTrip(n / 10);
      var s := Decimal(n);
      assert s[..|s| - 1] == Decimal(n / 10);
    }
  }

  /** JavaScript's text of an integral number: a minus sign for negatives, then the digits. */
  function IntText(n: int): (s: string)
    ensures |s| > 0
    ensures n < 0 <==> s[0] == '-'
  {
    if n < 0 then "-" + Decimal(-n) else Decimal(n)
  }

  /** `Math.round`: the nearest integer, halves rounded up. */
  function JsRound(x: real): (n: int)
    ensures n as real <= x + 0.5 < n as real + 1.0
  {
    (x + 0.5).Floor
  }

  /**
   * `Math.round(x) + "%"`: for a non-negative reading, the digits of the rounded
   * value with no leading zero, then a percent sign.
   */
  function Percent(x: real): (s: string)
    ensures |s| >= 2 && s[|s| - 1] == '%'
    ensures x >= 0.0 ==>
      (forall i :: 0 <= i < |s| - 1 ==> '0' <= s[i] <= '9') && DecimalValue(s[..|s| - 1]) == JsRound(x)
    ensures x >= 0.0 && |s| > 2 ==> s[0] != '0'
  {
    var n := JsRound(x);
    var s := IntText(n) + "%";
    assert s[..|s| - 1] == IntText(n);
    assert n >= 0 ==> DecimalValue(IntText(n)) == n by {
      if n >= 0 {
        DecimalRoundTrip(n);
      }
    }
    s
  }

  // The risk label

  const RiskSuffix := " Risk"

  /** The level with its first character upper-cased, then " Risk". */
  function RiskLabel(level: string): (shown: string)
    ensures |shown| == |level| + |RiskSuffix|
    ensures |level| > 0 ==> shown[0] == UpperChar(level[0])
    ensures forall i :: 0 < i < |level| ==> shown[i] == level[i]
    ensures shown[|level|..] == RiskSuffix
  {
    Capitalize(level) + RiskSuffix
  }

  // The circular indicator

  /** The circumference of the indicator's ring, in SVG units. */
  const MaxOffset: real := 565.0

  /** `strokeDashoffset`: the part of the ring left undrawn for a score out of 100. */
  function IndicatorOffset(score: real): (offset: real)
    ensures offset == MaxOffset * (100.0 - score) / 100.0
  {
    MaxOffset - score / 100.0 * MaxOffset
  }

  /** An empty score leaves the ring undrawn, a full score draws all of it. */
  lemma OffsetEndpoints()
    ensures IndicatorOffset(0.0) == MaxOffset
    ensures IndicatorOffset(100.0) == 0.0
  {
  }

  /** A higher score draws more of the ring. */
  lemma OffsetDecreasing(s: real, t: real)
    requires s < t
    ensures IndicatorOffset(t) < IndicatorOffset(s)
  {
  }

  /** For a score between 0 and 100 the offset stays within the ring. */
  lemma OffsetInRing(score: real)
    requires 0.0 <= score <= 100.0
    ensures 0.0 <= IndicatorOffset(score) <= MaxOffset
  {
  }

  // The rendered result

  /** What `displayResult` writes into the page. */
  datatype ResultView = ResultView(
    dateLine: string,
    riskLabel: string,
    percentage: string,
    indicatorClass: string,
    offset: real,
    confidenceText: string,
    confidenceWidth: real,
    explanation: string)

  const DatePrefix := "Prediction Date: "

  /** `result.timestamp || now`: an absent or empty timestamp falls back to the local time. */
  function DateText(timestamp: Option<string>, now: string): (d: string)
    ensures timestamp.Some? && timestamp.value != "" ==> d == timestamp.value
    ensures timestamp.None? || timestamp.value == "" ==> d == now
  {
    match timestamp
    case Some(t) => if t != "" then t else now
    case None => now
  }

  /** `displayResult`, with the local time passed in. */
  function DisplayResult(result: PredictionResult, now: string): ResultView
  {
    ResultView(
      DatePrefix + DateText(result.timestamp, now),
      RiskLabel(result.riskLevel),
      Percent(result.riskScore),
      "risk-indicator " + result.riskLevel,
      IndicatorOffset(result.riskScore),
      Percent(result.confidence),
      result.confidence,
      result.explanation)
  }

  // Report labels

  /** An RGB colour. */
  datatype Rgb = Rgb(r: int, g: int, b: int)

  const Red := Rgb(255, 82, 82)
  const Orange := Rgb(255, 152, 0)
  const Green := Rgb(76, 175, 80)

  /** The colour of the level in the report: green, then overridden for "high" and for "moderate". */
  function RiskColour(level: string): (c: Rgb)
    ensures c == Red <==> level == "high"
    ensures c == Orange <==> level == "moderate"
    ensures c == Green <==> level != "high" && level != "moderate"
  {
    if level == "moderate" then Orange
    else if level == "high" then Red
    else Green
  }

  /** The gender row: code 1 is male, every other code female. */
  function GenderText(gender: int): string
  {
    if gender == 1 then "Male" else "Female"
  }

  /** The smoking, alcohol and activity rows: flag 1 is "Yes", every other value "No". */
  function YesNo(flag: int): string
  {
    if flag == 1 then "Yes" else "No"
  }

  /** Only code 1 reads "Male" and only flag 1 reads "Yes". */
  lemma RecordTexts(gender: int, flag: int)
    ensures GenderText(gender) == "Male" <==> gender == 1
    ensures YesNo(flag) == "Yes" <==> flag == 1
  {
    assert "Male" != "Female" && "Yes" != "No";
  }

  /** The three levels the server sends read "Low Risk", "Moderate Risk" and "High Risk". */
  lemma LevelLabels()
    ensures RiskLabel("low") == "Low Risk"
    ensures RiskLabel("moderate") == "Moderate Risk"
    ensures RiskLabel("high") == "High Risk"
  {
    CapitalizedLabel("low", 'L');
    CapitalizedLabel("moderate", 'M');
    CapitalizedLabel("high", 'H');
  }

  /** The label of a level whose first letter upper-cases to `first`. */
  lemma CapitalizedLabel(level: string, first: char)
    requires |level| > 0 && UpperChar(level[0]) == first
    ensures RiskLabel(level) == [first] + level[1..] + RiskSuffix
  {
  }

  /** A high result with score 82.4 and confidence 91.2 shows 82%, 91%, "High Risk", and leaves 99.44 of the ring undrawn. */
  lemma HighResultShown(result: PredictionResult, now: string)
    requires result.riskLevel == "high" && result.riskScore == 82.4 && result.confidence == 91.2
    ensures DisplayResult(result, now).percentage == "82%"
    ensures DisplayResult(result, now).confidenceText == "91%"
    ensures DisplayResult(result, now).riskLabel == "High Risk"
    ensures DisplayResult(result, now).offset == 99.44
    ensures RiskColour(result.riskLevel) == Red
  {
    LevelLabels();
    RoundedPercents();
  }

  /** 82.4 and 91.2 are shown as "82%" and "91%". */
  lemma RoundedPercents()
    ensures Percent(82.4) == "82%" && Percent(91.2) == "91%"
  {
    assert JsRound(82.4) == 82 && JsRound(91.2) == 91;
    assert Decimal(82) == "82" && Decimal(91) == "91";
  }
}
