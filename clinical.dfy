/**
 * The client's clinical interpretation (`getClinicalInterpretation` in app.js):
 * fixed threshold rules over the patient record, each contributing one advisory
 * sentence, assembled into one advisory paragraph.
 *
 * The rules are given twice: once as a reference (the rule table `RuleOrder`,
 * each rule with its own firing range, filtered in table order) and once as the
 * chain of `if`/`else if` statements that appends to a list, in the method
 * `GetClinicalInterpretation`; the method is proved to agree with the reference.
 */
module ClinicalAdvice {
  import opened Patient
  import opened Seqs
  import opened Text

  datatype Rule =
    | HighCholesterol
    | BorderlineCholesterol
    | CriticalGlucose
    | ElevatedGlucose
    | HighBloodPressure
    | Smoking
    | Inactivity
    | Obesity

  /** The order in which the rules are evaluated. */
  const RuleOrder: seq<Rule> := [HighCholesterol, BorderlineCholesterol, CriticalGlucose,
    ElevatedGlucose, HighBloodPressure, Smoking, Inactivity, Obesity]

  /** The advisory category of a rule: cholesterol, glucose, blood pressure, smoking, activity, weight. */
  function Category(r: Rule): int
  {
    match r
    case HighCholesterol => 0
    case BorderlineCholesterol => 0
    case CriticalGlucose => 1
    case ElevatedGlucose => 1
    case HighBloodPressure => 2
    case Smoking => 3
    case Inactivity => 4
    case Obesity => 5
  }

  const HealthyNote := "Maintain your current healthy lifestyle habits. Regular check-ups are still recommended."
  const AdvisoryPrefix := "Clinical Interpretation (Advisory Only): "
  const ClosingAdvice := " Consult a healthcare professional for a personalized plan."

  const HighCholesterolText := "Reducing cholesterol intake and medication may be required."
  const BorderlineCholesterolText := "Dietary changes to lower cholesterol are recommended."
  const CriticalGlucoseText := "Blood sugar management is critical; consult a specialist."
  const ElevatedGlucoseText := "Monitor blood sugar levels and limit sugar intake."
  const BloodPressureText := "Blood pressure management through diet and exercise is advised."
  const SmokingText := "Stopping smoking is the single best step for heart health."
  const InactivityText := "Incorporating regular moderate physical activity is highly beneficial."
  const ObesityText := "Weight management strategies should be discussed with a provider."

  /** The sentence a rule contributes. */
  function Advisory(r: Rule): string
  {
    match r
    case HighCholesterol => HighCholesterolText
    case BorderlineCholesterol => BorderlineCholesterolText
    case CriticalGlucose => CriticalGlucoseText
    case ElevatedGlucose => ElevatedGlucoseText
    case HighBloodPressure => BloodPressureText
    case Smoking => SmokingText
    case Inactivity => InactivityText
    case Obesity => ObesityText
  }

  /**
   * The weight rule `weight / (height/100)**2 > 30`, evaluated on JavaScript
   * numbers: with a zero height the quotient is an infinity or NaN.
   */
  predicate ClientObese(p: PatientInput)
  {
    JsGreater(ClientBmi(p), 30.0)
  }

  /** The weight rule fires for an index above 30, or, with a zero height, for any positive weight. */
  lemma ClientObeseIff(p: PatientInput)
    ensures p.height != 0.0 ==> (ClientObese(p) <==> Bmi(p) > 30.0)
    ensures p.height == 0.0 ==> (ClientObese(p) <==> p.weight > 0.0)
  {
    if p.height != 0.0 {
      ClientBmiAgrees(p);
    }
  }

  /** The reading range in which each rule fires, stated independently of the others. */
  predicate Fires(r: Rule, p: PatientInput)
  {
    match r
    case HighCholesterol => p.cholesterol >= 240.0
    case BorderlineCholesterol => 200.0 <= p.cholesterol < 240.0
    case CriticalGlucose => p.gluc >= 126.0
    case ElevatedGlucose => 100.0 <= p.gluc < 126.0
    case HighBloodPressure => p.apHi >= 140.0 || p.apLo >= 90.0
    case Smoking => p.smoke == 1
    case Inactivity => p.active == 0
    case Obesity => ClientObese(p)
  }

  /** The firing test of every rule for `p`. */
  function FiringFor(p: PatientInput): Rule -> bool
  {
    r => Fires(r, p)
  }

  /** The rules that fire for `p`, in evaluation order. */
  function FiredRules(p: PatientInput): seq<Rule>
  {
    Filter(RuleOrder, FiringFor(p))
  }

  /** The sentences of a list of rules, one each, in the same order. */
  function Sentences(rs: seq<Rule>): (ss: seq<string>)
    ensures |ss| == |rs|
  {
    if rs == [] then [] else Sentences(rs[..|rs| - 1]) + [Advisory(rs[|rs| - 1])]
  }

  /** The advisory sentences for `p`, in evaluation order. */
  function Advisories(p: PatientInput): seq<string>
  {
    Sentences(FiredRules(p))
  }

  /** The interpretation text: the fallback sentence, or the advisories framed by prefix and closing sentence. */
  function Interpretation(p: PatientInput): string
  {
    if FiredRules(p) == [] then HealthyNote
    else AdvisoryPrefix + Join(Advisories(p), " ") + ClosingAdvice
  }

  /** The sentences of the rules of `rs` that fire for `p`, in the order of `rs`. */
  function AdviceFrom(p: PatientInput, rs: seq<Rule>): seq<string>
  {
    Sentences(Filter(rs, FiringFor(p)))
  }

  /** The sentences of two lists of rules, one after the other. */
  lemma {:induction false} SentencesAppend(a: seq<Rule>, b: seq<Rule>)
    ensures Sentences(a + b) == Sentences(a) + Sentences(b)
  {
    if b == [] {
      assert a + b == a;
    } else {
      var init, x := b[..|b| - 1], b[|b| - 1];
      assert Sentences(a + b) == Sentences(a + init) + [Advisory(x)] by {
        assert (a + b)[..|a + b| - 1] == a + init;
        assert (a + b)[|a + b| - 1] == x;
      }
      SentencesAppend(a, init);
      assert Sentences(b) == Sentences(init) + [Advisory(x)];
    }
  }

  /** The advice of two consecutive parts of the table. */
  lemma AdviceAppend(p: PatientInput, a: seq<Rule>, b: seq<Rule>)
    ensures AdviceFrom(p, a + b) == AdviceFrom(p, a) + AdviceFrom(p, b)
  {
    FilterAppend(a, b, FiringFor(p));
    SentencesAppend(Filter(a, FiringFor(p)), Filter(b, FiringFor(p)));
  }

  /** The sentence the cholesterol `if`/`else if` pair appends, if any. */
  function CholesterolAdvice(p: PatientInput): seq<string>
  {
    if p.cholesterol >= 240.0 then [Advisory(HighCholesterol)]
    else if p.cholesterol >= 200.0 then [Advisory(BorderlineCholesterol)]
    else []
  }

  /** The sentence the glucose `if`/`else if` pair appends, if any. */
  function GlucoseAdvice(p: PatientInput): seq<string>
  {
    if p.gluc >= 126.0 then [Advisory(CriticalGlucose)]
    else if p.gluc >= 100.0 then [Advisory(ElevatedGlucose)]
    else []
  }

  /** The sentence a single `if` appends, if any. */
  function OneRuleAdvice(p: PatientInput, r: Rule): seq<string>
  {
    if Fires(r, p) then [Advisory(r)] else []
  }

  /** The advice of a single rule of the table. */
  lemma AdviceOfOne(p: PatientInput, r: Rule)
    ensures AdviceFrom(p, [r]) == OneRuleAdvice(p, r)
  {
    FilterSingle(r, FiringFor(p));
    if Fires(r, p) {
      assert FiringFor(p)(r);
    } else {
      assert !FiringFor(p)(r);
    }
  }

  /** The two cholesterol rules give the sentence of the cholesterol `if`/`else if` pair. */
  lemma CholesterolGroup(p: PatientInput)
    ensures AdviceFrom(p, [HighCholesterol, BorderlineCholesterol]) == CholesterolAdvice(p)
  {
    assert [HighCholesterol, BorderlineCholesterol] == [HighCholesterol] + [BorderlineCholesterol];
    AdviceAppend(p, [HighCholesterol], [BorderlineCholesterol]);
    AdviceOfOne(p, HighCholesterol);
    AdviceOfOne(p, BorderlineCholesterol);
  }

  /** The two glucose rules give the sentence of the glucose `if`/`else if` pair. */
  lemma GlucoseGroup(p: PatientInput)
    ensures AdviceFrom(p, [CriticalGlucose, ElevatedGlucose]) == GlucoseAdvice(p)
  {
    assert [CriticalGlucose, ElevatedGlucose] == [CriticalGlucose] + [ElevatedGlucose];
    AdviceAppend(p, [CriticalGlucose], [ElevatedGlucose]);
    AdviceOfOne(p, CriticalGlucose);
    AdviceOfOne(p, ElevatedGlucose);
  }

  /** All rules, grouped by category. */
  lemma AdvisoriesByCategory(p: PatientInput)
    ensures Advisories(p) == CholesterolAdvice(p) + GlucoseAdvice(p)
      + OneRuleAdvice(p, HighBloodPressure) + OneRuleAdvice(p, Smoking)
      + OneRuleAdvice(p, Inactivity) + OneRuleAdvice(p, Obesity)
  {
    var chol := [HighCholesterol, BorderlineCholesterol];
    var gluc := [CriticalGlucose, ElevatedGlucose];
    assert RuleOrder == chol + gluc + [HighBloodPressure] + [Smoking] + [Inactivity] + [Obesity];
    AdviceAppend(p, chol + gluc + [HighBloodPressure] + [Smoking] + [Inactivity], [Obesity]);
    AdviceAppend(p, chol + gluc + [HighBloodPressure] + [Smoking], [Inactivity]);
    AdviceAppend(p, chol + gluc + [HighBloodPressure], [Smoking]);
    AdviceAppend(p, chol + gluc, [HighBloodPressure]);
    AdviceAppend(p, chol, gluc);
    CholesterolGroup(p);
    GlucoseGroup(p);
    AdviceOfOne(p, HighBloodPressure);
    AdviceOfOne(p, Smoking);
    AdviceOfOne(p, Inactivity);
    AdviceOfOne(p, Obesity);
  }

  /** The interpretation, in terms of the advice the six category blocks append. */
  lemma InterpretationByCategory(p: PatientInput, advice: seq<string>)
    requires advice == CholesterolAdvice(p) + GlucoseAdvice(p)
      + OneRuleAdvice(p, HighBloodPressure) + OneRuleAdvice(p, Smoking)
      + OneRuleAdvice(p, Inactivity) + OneRuleAdvice(p, Obesity)
    ensures Interpretation(p)
      == if |advice| == 0 then HealthyNote else AdvisoryPrefix + Join(advice, " ") + ClosingAdvice
  {
    AdvisoriesByCategory(p);
  }

  /**
   * `getClinicalInterpretation`: evaluates the rules in order, appending one
   * sentence per firing rule, and frames the result. The level argument of the
   * source is never read and is not modelled.
   */
  method GetClinicalInterpretation(p: PatientInput) returns (note: string)
    ensures note == Interpretation(p)
  {
    var advice: seq<string> := [];

    if p.cholesterol >= 240.0 {
      advice := advice + [Advisory(HighCholesterol)];
    } else if p.cholesterol >= 200.0 {
      advice := advice + [Advisory(BorderlineCholesterol)];
    }
    ghost var expected := CholesterolAdvice(p);
    assert advice == expected;

    if p.gluc >= 126.0 {
      advice := advice + [Advisory(CriticalGlucose)];
    } else if p.gluc >= 100.0 {
      advice := advice + [Advisory(ElevatedGlucose)];
    }
    expected := expected + GlucoseAdvice(p);
    assert advice == expected;

    if p.apHi >= 140.0 || p.apLo >= 90.0 {
      advice := advice + [Advisory(HighBloodPressure)];
    }
    expected := expected + OneRuleAdvice(p, HighBloodPressure);
    assert advice == expected;

    if p.smoke == 1 {
      advice := advice + [Advisory(Smoking)];
    }
    expected := expected + OneRuleAdvice(p, Smoking);
    assert advice == expected;

    if p.active == 0 {
      advice := advice + [Advisory(Inactivity)];
    }
    expected := expected + OneRuleAdvice(p, Inactivity);
    assert advice == expected;

    if ClientObese(p) {
      advice := advice + [Advisory(Obesity)];
    }
    expected := expected + OneRuleAdvice(p, Obesity);
    assert advice == expected;
    InterpretationByCategory(p, advice);

    if |advice| == 0 {
      return HealthyNote;
    }
    return AdvisoryPrefix + Join(advice, " ") + ClosingAdvice;
  }

  /** Every rule of the table fires exactly under its own range. */
  lemma {:induction false} FiredRulesIff(p: PatientInput, r: Rule)
    ensures r in FiredRules(p) <==> Fires(r, p)
  {
    FilterMembers(RuleOrder, FiringFor(p), r);
    assert r in RuleOrder by {
      match r
      case HighCholesterol => assert RuleOrder[0] == r;
      case BorderlineCholesterol => assert RuleOrder[1] == r;
      case CriticalGlucose => assert RuleOrder[2] == r;
      case ElevatedGlucose => assert RuleOrder[3] == r;
      case HighBloodPressure => assert RuleOrder[4] == r;
      case Smoking => assert RuleOrder[5] == r;
      case Inactivity => assert RuleOrder[6] == r;
      case Obesity => assert RuleOrder[7] == r;
    }
  }

  /** The i-th sentence is the sentence of the i-th rule. */
  lemma {:induction false} SentencesAt(rs: seq<Rule>, i: nat)
    requires i < |rs|
    ensures Sentences(rs)[i] == Advisory(rs[i])
  {
    if i < |rs| - 1 {
      SentencesAt(rs[..|rs| - 1], i);
    }
  }

  /** Different rules contribute different sentences. */
  lemma AdvisoryInjective(r1: Rule, r2: Rule)
    ensures Advisory(r1) == Advisory(r2) <==> r1 == r2
  {
    if r1 != r2 {
      assert |Advisory(r1)| != |Advisory(r2)|;
    }
  }

  /** A rule's sentence appears in the advice exactly when the rule fires. */
  lemma AdvisoryPresentIff(p: PatientInput, r: Rule)
    ensures Advisory(r) in Advisories(p) <==> Fires(r, p)
  {
    var rs := FiredRules(p);
    FiredRulesIff(p, r);
    if Advisory(r) in Advisories(p) {
      var i :| 0 <= i < |rs| && Advisories(p)[i] == Advisory(r);
      SentencesAt(rs, i);
      AdvisoryInjective(rs[i], r);
    }
    if Fires(r, p) {
      var i :| 0 <= i < |rs| && rs[i] == r;
      SentencesAt(rs, i);
    }
  }

  /**
   * Cholesterol of at least 240 selects the medication sentence, 200 up to 240 the
   * dietary one; glucose of at least 126 the critical sentence, 100 up to 126 the
   * monitoring one.
   */
  lemma ThresholdSentences(p: PatientInput)
    ensures Advisory(HighCholesterol) in Advisories(p) <==> p.cholesterol >= 240.0
    ensures Advisory(BorderlineCholesterol) in Advisories(p) <==> 200.0 <= p.cholesterol < 240.0
    ensures Advisory(CriticalGlucose) in Advisories(p) <==> p.gluc >= 126.0
    ensures Advisory(ElevatedGlucose) in Advisories(p) <==> 100.0 <= p.gluc < 126.0
    ensures Advisory(HighBloodPressure) in Advisories(p) <==> p.apHi >= 140.0 || p.apLo >= 90.0
  {
    AdvisoryPresentIff(p, HighCholesterol);
    AdvisoryPresentIff(p, BorderlineCholesterol);
    AdvisoryPresentIff(p, CriticalGlucose);
    AdvisoryPresentIff(p, ElevatedGlucose);
    AdvisoryPresentIff(p, HighBloodPressure);
  }

  /** Two rules that both fire belong to categories in table order: the two rules of one category exclude each other. */
  lemma RuleOrderByCategory(p: PatientInput)
    ensures IncreasingAmongKept(RuleOrder, FiringFor(p), Category)
  {
    forall i, j | 0 <= i < j < |RuleOrder| && FiringFor(p)(RuleOrder[i]) && FiringFor(p)(RuleOrder[j])
      ensures Category(RuleOrder[i]) < Category(RuleOrder[j])
    {
      assert Fires(RuleOrder[i], p) && Fires(RuleOrder[j], p);
    }
  }

  /**
   * The firing rules come in the order cholesterol, glucose, blood pressure,
   * smoking, activity, weight, with at most one of each category.
   */
  lemma FiredInCategoryOrder(p: PatientInput)
    ensures Increasing(FiredRules(p), Category)
  {
    RuleOrderByCategory(p);
    FilterIncreasing(RuleOrder, FiringFor(p), Category);
  }

  /** There are at most six advisory sentences. */
  lemma AtMostSixAdvisories(p: PatientInput)
    ensures |Advisories(p)| <= 6
  {
    FiredInCategoryOrder(p);
    IncreasingBound(FiredRules(p), Category, 0, 6);
  }

  /**
   * The fallback sentence is given exactly when no rule fires; when some rule
   * fires, the note is the advisories framed by the prefix and closing sentence.
   */
  lemma HealthyNoteIff(p: PatientInput)
    ensures Interpretation(p) == HealthyNote <==> forall r :: !Fires(r, p)
    ensures (exists r :: Fires(r, p)) ==>
      Advisories(p) != [] && Interpretation(p) == AdvisoryPrefix + Join(Advisories(p), " ") + ClosingAdvice
  {
    if FiredRules(p) != [] {
      var r := FiredRules(p)[0];
      FiredRulesIff(p, r);
      var text := AdvisoryPrefix + Join(Advisories(p), " ") + ClosingAdvice;
      assert |text| >= |AdvisoryPrefix| + |ClosingAdvice| > |HealthyNote|;
    } else {
      forall r ensures !Fires(r, p) {
        FiredRulesIff(p, r);
      }
    }
  }

  /** A record with every reading in its normal range: cholesterol 180, glucose 90, 120/80, non-smoker, active, 170 cm, 70 kg. */
  lemma NormalReadingsGiveHealthyNote(p: PatientInput)
    requires p.cholesterol == 180.0 && p.gluc == 90.0 && p.apHi == 120.0 && p.apLo == 80.0
    requires p.smoke == 0 && p.active == 1 && p.height == 170.0 && p.weight == 70.0
    ensures Interpretation(p) == HealthyNote
  {
    assert !ClientObese(p) by {
      ClientObeseIff(p);
      assert Bmi(p) * HeightSquared(p) == 70.0;
    }
    HealthyNoteIff(p);
  }

  /**
   * A record in which every category is out of range: cholesterol 250, glucose 130,
   * 150/95, smoker, inactive, 160 cm, 90 kg. All six categories give advice, in order.
   */
  lemma AllCategoriesFire(p: PatientInput)
    requires p.cholesterol == 250.0 && p.gluc == 130.0 && p.apHi == 150.0 && p.apLo == 95.0
    requires p.smoke == 1 && p.active == 0 && p.height == 160.0 && p.weight == 90.0
    ensures Advisories(p) == [Advisory(HighCholesterol), Advisory(CriticalGlucose),
      Advisory(HighBloodPressure), Advisory(Smoking), Advisory(Inactivity), Advisory(Obesity)]
    ensures Interpretation(p) == AdvisoryPrefix + Join(Advisories(p), " ") + ClosingAdvice
  {
    assert ClientObese(p) by {
      ClientObeseIff(p);
      assert Bmi(p) * HeightSquared(p) == 90.0;
    }
    AdvisoriesByCategory(p);
  }
}
