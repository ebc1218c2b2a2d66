# Cardio70 rules, modelled in Dafny

Cardio70 is a cardiovascular-risk prediction tool made of two parts:

- A browser client (`app.js`). It collects a patient record, posts it to the server and shows the returned prediction. It also writes its own rule-based "Clinical Interpretation" and can print a PDF report of the last prediction.
- A Flask server (`app.py`). It encodes the cholesterol and glucose readings into categories 1 to 3 and runs a trained model. It then bands the model's risk score into low, moderate or high, and writes a plain-language explanation listing the factors that contributed.

This project models the deterministic parts of both sides. Readings are exact `real`s.

- **`ClinicalAdvice`** (clinical.dfy) models the client's advisory rules. The rules are stated twice:
  - as a reference definition: a fixed rule table, filtered by independent threshold tests;
  - as the source's `if` chain pushing sentences onto a list (`GetClinicalInterpretation`).

  The method is proved to produce the reference text.
- **`Presentation`** (presentation.dfy) models what `displayResult` shows:
  - the risk label and the rounded percentages;
  - the circular indicator's offset.

  It also models the report's labels: level colour, Male/Female and Yes/No.
- **`Report`** (report.dfy) models two things:
  - the running vertical position `y` of the PDF report, as a method proved equal to a closed form;
  - the single prediction slot `window.currentPrediction`. This is a class whose reply handler overwrites the slot only on a `"success"` status, and whose report generator returns nothing while the slot is empty.
- **`RiskEncoding`** (encoding.dfy) models the server's two category encoders and the score banding.
- **`Explanation`** (explanation.dfy) models `generate_explanation`. The factor list is stated as a reference definition and also as the source's appending `if` chains. The long `explanations` chain is written as two methods: the reading tests, then the lifestyle and weight tests. The `lifestyle_issues` chain is a third method. The final sentence quotes the first two factors (low risk) or three factors (moderate and high risk).
- **`Agreement`** (agreement.dfy) relates the client's advice to the server's categories and factors for the same record: where their thresholds coincide and where they do not.
- **`Patient`**, **`Seqs`**, **`Text`** and **`Wrappers`** hold shared helpers:
  - the record, the body-mass index and JavaScript division;
  - an order-preserving filter with its ordering lemmas;
  - string joining and ASCII upper-casing;
  - `Option`.

Two consequences of the code's constants are worth stating:

- **Disclaimer position.** The report's sections follow a running `y` that grows with the wrapped texts, but the disclaimer box is drawn at the fixed height 245 (app.js:314). `Report.DisclaimerFixed` proves that the running `y` passes 245 once the two wrapped texts together take more than eight lines. The running `y` reserves six units per wrapped line. In that accounting, when the clinical text has at least one line, the slot of its last line is at 178 + 6(n + m), above 245 iff n + m ≤ 11.
- **Indicator offset.** For a score of 82.4 the code's formula `565 - 82.4/100*565` gives exactly 99.44 in exact arithmetic (`Presentation.HighResultShown`).

## Model

| member | source | states |
|---|---|---|
| ClinicalAdvice.GetClinicalInterpretation | app.js:161-185 | The `if` chain that pushes advisories returns exactly the reference interpretation. The advisories are those of the firing rules, in table order, with the fallback sentence when none fires. |
| ClinicalAdvice.FiredRulesIff | app.js:164-178 | A rule is among the fired rules exactly when its threshold test holds. |
| ClinicalAdvice.AdvisoryPresentIff | app.js:164-178 | A rule's advisory sentence appears in the note's list exactly when that rule fires. |
| ClinicalAdvice.AdvisoryInjective | app.js:165-178 | Different rules push different sentences. |
| ClinicalAdvice.ThresholdSentences | app.js:165-173 | Thresholds of the sentences:<br>• medication sentence iff cholesterol ≥ 240; dietary sentence iff 200 ≤ cholesterol < 240;<br>• critical glucose sentence iff glucose ≥ 126; monitoring sentence iff 100 ≤ glucose < 126;<br>• blood-pressure sentence iff systolic ≥ 140 or diastolic ≥ 90 (inclusive). |
| ClinicalAdvice.ClientObeseIff | app.js:178 | Weight rule:<br>• for a non-zero height it fires iff the body-mass index is strictly above 30;<br>• for a zero height JavaScript divides by zero, and the rule fires iff the weight is positive. |
| ClinicalAdvice.FiredInCategoryOrder | app.js:164-178 | The fired rules are strictly increasing by category: cholesterol, glucose, blood pressure, smoking, activity, weight. So each category contributes at most one sentence. |
| ClinicalAdvice.AtMostSixAdvisories | app.js:164-178 | There are never more than six advisories. |
| ClinicalAdvice.HealthyNoteIff | app.js:180-184 | The note is the fixed healthy-habits sentence exactly when no rule fires. When some rule fires, the list is non-empty and the note is the prefix, the advisories joined by single spaces, then the closing sentence. |
| ClinicalAdvice.NormalReadingsGiveHealthyNote | app.js:180-182 | The record 180 / 90 / 120-80 / non-smoker / active / 170 cm / 70 kg gets the healthy-habits sentence. |
| ClinicalAdvice.AllCategoriesFire | app.js:164-184 | The record 250 / 130 / 150-95 / smoker / inactive / 160 cm / 90 kg gets all six category sentences, in order, framed by prefix and closing sentence. |
| Patient.Bmi | app.py:172 | For a non-zero height, the index times the squared height in metres is the weight, and it is positive iff the weight is. |
| Patient.JsDivide | app.js:178 | JavaScript division:<br>• a non-zero divisor gives the exact quotient;<br>• a zero divisor gives an infinity with the dividend's sign, and 0/0 gives NaN. |
| Patient.ClientBmiAgrees | app.js:115-116 | For a non-zero height, the index the browser computes is the exact one. |
| Presentation.RiskLabel | app.js:143 | The label is the level with its first character upper-cased, then the rest unchanged, then " Risk". |
| Presentation.LevelLabels | app.js:143 | The server's three levels read "Low Risk", "Moderate Risk" and "High Risk". |
| Presentation.Percent | app.js:144 | `Math.round(x) + "%"` ends in "%". For a non-negative x, its digits read back to the rounded value, with halves rounded up, and have no leading zero. |
| Presentation.DecimalRoundTrip | app.js:144 | Reading back the decimal digits of a natural number gives the number. |
| Presentation.IndicatorOffset | app.js:148-149 | The offset is the undrawn share of the 565-unit ring, 565·(100 − score)/100. |
| Presentation.OffsetEndpoints | app.js:148-149 | Score 0 gives offset 565 and score 100 gives 0. |
| Presentation.OffsetDecreasing | app.js:148-149 | A higher score gives a strictly smaller offset. |
| Presentation.OffsetInRing | app.js:148-149 | For a score in [0, 100] the offset lies in [0, 565]. |
| Presentation.RoundedPercents | app.js:144-153 | The readings 82.4 and 91.2 are shown as "82%" and "91%". |
| Presentation.DateText | app.js:134 | A non-empty timestamp is shown as sent. An absent or empty one falls back to the local time. |
| Presentation.HighResultShown | app.js:143-153 | A high result with score 82.4 and confidence 91.2 shows "82%", "91%" and "High Risk", with offset 99.44 and red in the report. |
| Presentation.RiskColour | app.js:266-268 | The report colour is red iff the level is "high", orange iff "moderate", and green for every other string. |
| Presentation.RecordTexts | app.js:235-249 | Only gender code 1 reads "Male"; only flag value 1 reads "Yes". |
| Report.ComputeLayout | app.js:218-310 | The running `y` produces the closed-form layout:<br>• clinical heading at 176 + 6n and clinical text at 184 + 6n;<br>• final `y` at 194 + 6n + 6m;<br>• disclaimer at 245. |
| Report.LayoutOrdered | app.js:218-310 | The sections come top to bottom: six record rows 7 apart, then the summary lines. Each wrapped text advances `y` by six per line plus a fixed gap. |
| Report.DisclaimerFixed | app.js:310-314 | The disclaimer is at 245 for every n and m. The final running `y` stays at or above it iff n + m ≤ 8. In the code's accounting of six per wrapped line, for m ≥ 1 the last clinical line's slot is at 178 + 6(n + m), above the disclaimer iff n + m ≤ 11. |
| Report.ReportNoteHealthyIff | app.js:196 | The report's clinical note is the healthy-habits sentence exactly when no rule fires for the cached inputs. |
| Report.PredictionSlot.constructor | app.js:119 | The slot starts empty. |
| Report.PredictionSlot.OnReply | app.js:110-119 | On status "success" the result is displayed (`Presentation.DisplayResult`, app.js:132-158: date line, risk label, rounded score, indicator class, ring offset, rounded confidence, confidence-bar width, explanation), and the slot holds the new result, the browser's index and the inputs: the last write wins. Any other reply changes nothing and shows nothing. |
| Report.PredictionSlot.GenerateReport | app.js:188-310 | No report iff the slot is empty. Otherwise the report for the cached pair, made of:<br>• the clinical note and the layout for its wrapped lengths;<br>• the upper-cased level and its colour;<br>• the rounded percentages and the record's texts. |
| RiskEncoding.EncodeCholesterol | app.py:38-48 | The category is in 1..3: 1 below 200, 2 for 200 ≤ v < 240, 3 from 240. |
| RiskEncoding.EncodeGlucose | app.py:50-60 | The category is in 1..3: 1 below 100, 2 for 100 ≤ v ≤ 125, 3 above 125. |
| RiskEncoding.CholesterolMonotone | app.py:46-48 | A higher reading never gets a lower cholesterol category. |
| RiskEncoding.GlucoseMonotone | app.py:58-60 | A higher reading never gets a lower glucose category. |
| RiskEncoding.RiskBand | app.py:226-232 | Every score gets exactly one level: low below 30, moderate for 30 ≤ s < 70, high from 70. |
| RiskEncoding.RiskBandMonotone | app.py:226-232 | A higher score never gets a less severe level. |
| RiskEncoding.TagInjective | app.py:226-232 | The three levels are sent as three different strings. |
| Explanation.CollectLifestyleIssues | app.py:93-99 | The appended issue names are those of the applying issues, in the order smoking, alcohol consumption, lack of physical activity. |
| Explanation.CollectReadingPhrases | app.py:66-90 | The age, cholesterol, glucose and blood-pressure tests append exactly the phrases of those factors that are present, in that order. |
| Explanation.CollectFactorPhrases | app.py:66-112 | The appending chain gives exactly the phrases of the present factors, in table order. |
| Explanation.GenerateExplanation | app.py:63-127 | The returned text is the level's sentence over the factor phrases of the record. |
| Explanation.ContextBmi | app.py:105-107 | The server's index for a non-zero height is the exact body-mass index. |
| Explanation.IssuesIff | app.py:94-99 | An issue is listed exactly when its flag applies: smoke = 1, alco = 1 or active = 0. |
| Explanation.IssuesInOrder | app.py:93-99 | The issues are strictly in the order smoking, alcohol, inactivity. |
| Explanation.SomeIssueIff | app.py:101-102 | The lifestyle list is non-empty exactly when smoke = 1, alco = 1 or active = 0. |
| Explanation.FactorsIff | app.py:66-112 | A factor is listed exactly when its presence test holds. |
| Explanation.ReadingFactors | app.py:69-86 | Age is listed iff age > 60. Each cholesterol and glucose phrase is listed iff its category is 3 or 2 respectively. |
| Explanation.PressureAndLifestyleFactors | app.py:89-102 | Hypertension is listed iff systolic > 140 or diastolic > 90 (strict). The lifestyle entry is listed iff some issue applies. |
| Explanation.WeightFactors | app.py:105-112 | Obesity is listed iff the index is above 30, and overweight iff 25 < index ≤ 30. The two never both appear. |
| Explanation.FactorsInGroupOrder | app.py:66-112 | The factors are strictly increasing by group: age, cholesterol, glucose, blood pressure, lifestyle, weight. There are at most six phrases. |
| Explanation.ExplanationQuotesLeading | app.py:115-127 | The sentence depends only on the first two phrases (low) or first three (moderate, high). |
| Explanation.NoFactorExplanation | app.py:115-127 | With no factor present, the list is empty. A low level gets the fixed healthy sentence; moderate and high get their fallback reasons. |
| Agreement.ServerEncoding | app.py:175-176 | The categories `predict` passes to the explanation are each in 1..3. |
| Agreement.CholesterolAgreement | app.py:46-48 | The client's medication sentence fires iff the server's cholesterol category is 3, and the dietary sentence iff it is 2. So some cholesterol advice is given iff the category is at least 2. |
| Agreement.CholesterolFactorAgreement | app.js:165-166 | For a non-zero height, the client's cholesterol sentences and the server's cholesterol phrases are given for the same records. |
| Agreement.GlucoseAgreementOnWholeReadings | app.py:58-60 | For a whole-number glucose reading, the critical sentence fires iff the category is 3, and the monitoring sentence iff it is 2. |
| Agreement.GlucoseFactorAgreement | app.js:169-170 | For a whole-number glucose reading and a non-zero height, the client's glucose sentences and the server's glucose phrases coincide. |
| Agreement.GlucoseDisagreement | app.py:59-60 | For 125 < v < 126 the server's category is 3 (diabetic range), while the client gives the monitoring sentence and not the critical one. |
| Agreement.BloodPressureBoundary | app.py:89 | At systolic exactly 140 with diastolic at most 90, or diastolic exactly 90 with systolic at most 140, the client advises on blood pressure, but the server lists no hypertension. |
| Agreement.ObesityAgreement | app.py:109 | For a non-zero height, the client's weight sentence and the server's obesity phrase are given for the same records. |
| Agreement.BandColour | app.py:226-232 | The band a score falls in is printed green below 30, orange below 70 and red from 70. |

## Left out

- The DOM, navigation, theme toggle, local storage and scrolling. This is UI plumbing with no rules in it.
- `fetch`, `async`, the loading overlay and `try`/`finally`. A failed request, a non-2xx status and an unparsable body are all one `Failed` reply, which changes nothing.
- `navigateToSection`, the confidence bar's CSS width and the indicator's class name. They are written into the page, but no property is stated about them beyond the result view.
- Chart.js set-up and re-theming. It is a foreign library fed static or random data.
- jsPDF drawing: fonts, colours as drawing calls, header and footer text, and `doc.save`.
- Report.DisclaimerFixed: the pitch of the lines inside one wrapped block is set by the PDF library's default line spacing, which the code never changes. The model has only the code's accounting of six units per line, so the position of the last clinical line is that accounting's slot, not where the library draws it.
- `splitTextToSize`. It measures text in a font; the number of lines it wraps a text to is a parameter, `wrapNormal` for the explanation in the normal style and `wrapItalic` for the clinical note in italics.
- The random report ID and the clocks (`new Date()`, `datetime.now()`). The local time is the parameter `now`.
- Number rendering: Python's `str` of a float, the raw JSON value of a reading, `{bmi:.1f}`, and JavaScript's `toFixed(1)` and number-to-text. These are the functions of the `Formats` record in the explanation. On the client, the cached index is kept as a number (`JsNumber`), not as text.
- Flask routing, CORS, pickle model loading, numpy, and `predict`'s error responses. This is framework and I/O. The risk score and confidence are given reals.
- The model's prediction itself (`model.predict`, `predict_proba`). It is a foreign call.
- String-to-number parsing: `float()`, `int()`, `safe_float`, and JavaScript's loose comparison of form strings. The record holds numbers already.
- Explanation.CollectFactorPhrases: requires a non-zero height, as do Explanation.CollectReadingPhrases, Explanation.GenerateExplanation and Explanation.ContextOf. Explanation.CollectReadingPhrases reads no index itself; its postcondition is stated over the context, which holds one. In the source a zero height raises a division error at app.py:172 before the explanation is reached, and `predict` answers with an error instead.
- `getClinicalInterpretation`'s `riskLevel` argument and `generate_explanation`'s `risk_score` argument. Neither function reads them, so the model omits them.
- Text.UpperChar: upper-cases ASCII letters only. JavaScript's `toUpperCase` also maps non-ASCII letters, which the levels the server sends never contain.
