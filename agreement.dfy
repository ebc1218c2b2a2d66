/**
 * How the client's advice (app.js) and the server's categories and factors
 * (app.py) relate for the same record: where their thresholds agree and where
 * they do not.
 */
module Agreement {
  import opened Patient
  import opened Presentation
  import opened RiskEncoding
  import C = ClinicalAdvice
  import E = Explanation

  /** The categories `predict` computes for a record and passes to `generate_explanation`. */
  function ServerEncoding(p: PatientInput): (enc: E.Encoded)
    ensures 1 <= enc.cholesterolCat <= 3 && 1 <= enc.glucoseCat <= 3
  {
    E.Encoded(EncodeCholesterol(p.cholesterol), EncodeGlucose(p.gluc))
  }

  /** The factors the server lists for a record with a non-zero height. */
  function ServerFactors(p: PatientInput): seq<E.Factor>
    requires p.height != 0.0
  {
    E.Factors(E.ContextOf(p, ServerEncoding(p)))
  }

  /**
   * The client gives cholesterol advice exactly when the server's category is at
   * least 2, and the medication sentence exactly when it is 3.
   */
  lemma CholesterolAgreement(p: PatientInput)
    ensures C.Advisory(C.HighCholesterol) in C.Advisories(p) <==> EncodeCholesterol(p.cholesterol) == 3
    ensures C.Advisory(C.BorderlineCholesterol) in C.Advisories(p) <==> EncodeCholesterol(p.cholesterol) == 2
    ensures (C.Advisory(C.HighCholesterol) in C.Advisories(p) || C.Advisory(C.BorderlineCholesterol) in C.Advisories(p))
      <==> EncodeCholesterol(p.cholesterol) >= 2
  {
    C.ThresholdSentences(p);
  }

  /**
   * For a whole-number glucose reading the client's critical sentence matches the
   * server's category 3, and its monitoring sentence category 2.
   */
  lemma GlucoseAgreementOnWholeReadings(p: PatientInput)
    requires p.gluc == p.gluc.Floor as real
    ensures C.Advisory(C.CriticalGlucose) in C.Advisories(p) <==> EncodeGlucose(p.gluc) == 3
    ensures C.Advisory(C.ElevatedGlucose) in C.Advisories(p) <==> EncodeGlucose(p.gluc) == 2
  {
    C.ThresholdSentences(p);
    var g := p.gluc.Floor;
    assert 125.0 < p.gluc <==> 126 <= g;
    assert p.gluc <= 125.0 <==> g <= 125;
  }

  /**
   * Between 125 and 126 the two disagree: the server's category is 3 (diabetic
   * range) while the client gives the monitoring sentence, not the critical one.
   */
  lemma GlucoseDisagreement(p: PatientInput)
    requires 125.0 < p.gluc < 126.0
    ensures EncodeGlucose(p.gluc) == 3
    ensures C.Advisory(C.ElevatedGlucose) in C.Advisories(p)
    ensures C.Advisory(C.CriticalGlucose) !in C.Advisories(p)
  {
    C.ThresholdSentences(p);
  }

  /**
   * For a record with a non-zero height, the client's two cholesterol sentences
   * and the server's two cholesterol phrases are given for the same readings.
   */
  lemma CholesterolFactorAgreement(p: PatientInput)
    requires p.height != 0.0
    ensures C.Advisory(C.HighCholesterol) in C.Advisories(p) <==> E.CriticalCholesterol in ServerFactors(p)
    ensures C.Advisory(C.BorderlineCholesterol) in C.Advisories(p) <==> E.ElevatedCholesterol in ServerFactors(p)
  {
    CholesterolAgreement(p);
    E.ReadingFactors(E.ContextOf(p, ServerEncoding(p)));
  }

  /** For a whole-number glucose reading the glucose sentences and phrases agree likewise. */
  lemma GlucoseFactorAgreement(p: PatientInput)
    requires p.height != 0.0 && p.gluc == p.gluc.Floor as real
    ensures C.Advisory(C.CriticalGlucose) in C.Advisories(p) <==> E.HighGlucose in ServerFactors(p)
    ensures C.Advisory(C.ElevatedGlucose) in C.Advisories(p) <==> E.ElevatedGlucose in ServerFactors(p)
  {
    GlucoseAgreementOnWholeReadings(p);
    E.ReadingFactors(E.ContextOf(p, ServerEncoding(p)));
  }

  /**
   * The client's blood-pressure rule is inclusive and the server's strict: a
   * systolic reading of exactly 140 (diastolic at most 90), or a diastolic
   * reading of exactly 90 (systolic at most 140), gets the client's advice but
   * no hypertension factor.
   */
  lemma BloodPressureBoundary(p: PatientInput)
    requires p.height != 0.0
    requires (p.apHi == 140.0 && p.apLo <= 90.0) || (p.apLo == 90.0 && p.apHi <= 140.0)
    ensures C.Advisory(C.HighBloodPressure) in C.Advisories(p)
    ensures E.Hypertension !in ServerFactors(p)
  {
    C.ThresholdSentences(p);
    E.FactorsIff(E.ContextOf(p, ServerEncoding(p)), E.Hypertension);
  }

  /** Above a zero height both sides flag obesity for the same records. */
  lemma ObesityAgreement(p: PatientInput)
    requires p.height != 0.0
    ensures C.Advisory(C.Obesity) in C.Advisories(p) <==> E.Obesity in ServerFactors(p)
  {
    C.AdvisoryPresentIff(p, C.Obesity);
    C.ClientObeseIff(p);
    E.ContextBmi(p, ServerEncoding(p));
    E.FactorsIff(E.ContextOf(p, ServerEncoding(p)), E.Obesity);
  }

  /**
   * The level the server bands a score into is shown in the report's colour for
   * that band: green below 30, orange below 70, red otherwise.
   */
  lemma BandColour(score: real)
    ensures RiskColour(RiskBand(score).Tag())
      == (if score < 30.0 then Green else if score < 70.0 then Orange else Red)
  {
  }
}
