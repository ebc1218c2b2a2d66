/**
 * The client's prediction slot (`window.currentPrediction` in app.js), which the
 * submit handler overwrites on every successful reply, and the PDF report that
 * `generateReport` composes from it: the labels it prints and the vertical
 * positions of its sections, kept in a running `y`.
 */
module Report {
  import opened Wrappers
  import opened Text
  import opened Patient
  import opened Presentation
  import ClinicalAdvice

  // Vertical layout

  /** The vertical positions, in millimetres from the top of the page, at which the report draws. */
  datatype Layout = Layout(
    patientHeading: int,
    rows: seq<int>,
    summaryHeading: int,
    levelLine: int,
    confidenceLine: int,
    scoreLine: int,
    explanationHeading: int,
    explanationText: int,
    clinicalHeading: int,
    clinicalText: int,
    finalY: int,
    disclaimerTop: int)

  /** Where the disclaimer box is drawn, whatever precedes it. */
  const DisclaimerTop := 245

  /**
   * The layout for an explanation wrapped to `n` lines and a clinical note wrapped
   * to `m` lines, in closed form.
   */
  function LayoutFor(n: nat, m: nat): Layout
  {
    Layout(55, [65, 72, 79, 86, 93, 100], 115, 127, 134, 141, 156, 166,
      176 + 6 * n, 184 + 6 * n, 194 + 6 * n + 6 * m, DisclaimerTop)
  }

  /**
   * The running `y` of `generateReport`: each section advances it by a fixed
   * amount, and each wrapped text by six per line.
   */
  method ComputeLayout(n: nat, m: nat) returns (l: Layout)
    ensures l == LayoutFor(n, m)
  {
    var y := 55;
    var patientHeading := y;
    y := y + 10;
    var rows := [y];
    y := y + 7;
    rows := rows + [y];
    y := y + 7;
    rows := rows + [y];
    y := y + 7;
    rows := rows + [y];
    y := y + 7;
    rows := rows + [y];
    y := y + 7;
    rows := rows + [y];

    y := y + 15;
    var summaryHeading := y;
    y := y + 12;
    var levelLine := y;
    y := y + 7;
    var confidenceLine := y;
    y := y + 7;
    var scoreLine := y;

    y := y + 15;
    var explanationHeading := y;
    y := y + 10;
    var explanationText := y;
    y := y + n * 6;

    y := y + 10;
    var clinicalHeading := y;
    y := y + 8;
    var clinicalText := y;
    y := y + m * 6 + 10;

    l := Layout(patientHeading, rows, summaryHeading, levelLine, confidenceLine, scoreLine,
      explanationHeading, explanationText, clinicalHeading, clinicalText, y, DisclaimerTop);
  }

  /** The sections come top to bottom, each wrapped text taking six per line. */
  lemma LayoutOrdered(n: nat, m: nat)
    ensures var l := LayoutFor(n, m);
      l.patientHeading < l.rows[0]
      && (forall i :: 0 < i < |l.rows| ==> l.rows[i] == l.rows[i - 1] + 7)
      && l.rows[|l.rows| - 1] < l.summaryHeading < l.levelLine < l.confidenceLine < l.scoreLine
      && l.scoreLine < l.explanationHeading < l.explanationText
      && l.clinicalHeading == l.explanationText + 6 * n + 10
      && l.finalY == l.clinicalText + 6 * m + 10
  {
  }

  /**
   * The disclaimer does not move, and the running `y` stays at or above it only
   * for at most eight wrapped lines in all. In the code's own accounting of six
   * units per wrapped line, the slot of the last clinical line lies above the
   * disclaimer for at most eleven; where the lines inside one wrapped block are
   * actually drawn is decided by the PDF library's line spacing.
   */
  lemma DisclaimerFixed(n: nat, m: nat)
    ensures LayoutFor(n, m).disclaimerTop == 245
    ensures LayoutFor(n, m).finalY <= DisclaimerTop <==> n + m <= 8
    ensures m >= 1 ==> LayoutFor(n, m).clinicalText + 6 * (m - 1) == 178 + 6 * (n + m)
    ensures m >= 1 ==> (LayoutFor(n, m).clinicalText + 6 * (m - 1) < DisclaimerTop <==> n + m <= 11)
  {
  }

  // The prediction slot

  /** What the submit handler does with the server's answer: a failed request, or a parsed body. */
  datatype Reply =
    | Failed          // non-2xx status, network failure or unparsable body: thrown and caught
    | Body(status: string, result: PredictionResult)

  /** The cached pair: the result, with the index the browser computes, and the inputs it was for. */
  datatype Cached = Cached(result: PredictionResult, bmi: JsNumber, inputs: PatientInput)

  /** What the report prints, besides fixed text. */
  datatype PdfReport = PdfReport(
    clinicalNote: string,
    layout: Layout,
    levelText: string,
    levelColour: Rgb,
    confidenceText: string,
    scoreText: string,
    genderText: string,
    smokingText: string,
    alcoholText: string,
    activityText: string)

  /**
   * The report for a cached pair. `wrapNormal` and `wrapItalic` give the number of
   * lines a text wraps to in the normal style (the explanation) and in italics
   * (the clinical note).
   */
  function ReportFor(c: Cached, wrapNormal: string -> nat, wrapItalic: string -> nat): PdfReport
  {
    var note := ClinicalAdvice.Interpretation(c.inputs);
    PdfReport(
      note,
      LayoutFor(wrapNormal(c.result.explanation), wrapItalic(note)),
      UpperCase(c.result.riskLevel),
      RiskColour(c.result.riskLevel),
      Percent(c.result.confidence),
      Percent(c.result.riskScore),
      GenderText(c.inputs.gender),
      YesNo(c.inputs.smoke),
      YesNo(c.inputs.alco),
      YesNo(c.inputs.active))
  }

  /** The report's clinical note is the fallback sentence exactly when no rule fires for the cached inputs. */
  lemma ReportNoteHealthyIff(c: Cached, wrapNormal: string -> nat, wrapItalic: string -> nat)
    ensures ReportFor(c, wrapNormal, wrapItalic).clinicalNote == ClinicalAdvice.HealthyNote
      <==> forall r :: !ClinicalAdvice.Fires(r, c.inputs)
  {
    ClinicalAdvice.HealthyNoteIff(c.inputs);
  }

  /** `window.currentPrediction`: empty until the first successful reply, then the latest one. */
  class PredictionSlot {
    var current: Option<Cached>

    constructor()
      ensures current == None
    {
      current := None;
    }

    /**
     * The submit handler after the request: a body whose status is "success" is
     * displayed and replaces the cached pair; anything else changes nothing.
     */
    method OnReply(reply: Reply, inputs: PatientInput, now: string) returns (shown: Option<ResultView>)
      modifies this
      ensures reply.Body? && reply.status == "success" ==>
        current == Some(Cached(reply.result, ClientBmi(inputs), inputs))
        && shown == Some(DisplayResult(reply.result, now))
      ensures !(reply.Body? && reply.status == "success") ==> current == old(current) && shown == None
    {
      shown := None;
      match reply
      case Failed =>
      case Body(status, result) =>
        if status == "success" {
          shown := Some(DisplayResult(result, now));
          var bmi := JsDivide(inputs.weight, HeightSquared(inputs));
          current := Some(Cached(result, bmi, inputs));
        }
    }

    /** `generateReport`: nothing without a cached pair, otherwise the report for it. */
    method GenerateReport(wrapNormal: string -> nat, wrapItalic: string -> nat) returns (report: Option<PdfReport>)
      ensures report.None? <==> current.None?
      ensures current.Some? ==> report == Some(ReportFor(current.value, wrapNormal, wrapItalic))
    {
      if current.None? {
        return None;
      }
      var c := current.value;
      var note := ClinicalAdvice.GetClinicalInterpretation(c.inputs);
      var layout := ComputeLayout(wrapNormal(c.result.explanation), wrapItalic(note));
      report := Some(PdfReport(
        note,
        layout,
        UpperCase(c.result.riskLevel),
        RiskColour(c.result.riskLevel),
        Percent(c.result.confidence),
        Percent(c.result.riskScore),
        GenderText(c.inputs.gender),
        YesNo(c.inputs.smoke),
        YesNo(c.inputs.alco),
        YesNo(c.inputs.active)));
    }
  }
}
