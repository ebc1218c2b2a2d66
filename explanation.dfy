/**
 * The server's plain-language explanation (`generate_explanation` in app.py):
 * an ordered list of contributing factors, the lifestyle issues folded into one
 * entry, and a sentence per risk level quoting the first two or three factors.
 *
 * As for the client's advice, the factors are given once as a reference (a factor
 * table filtered by independent presence tests) and once as the method that
 * appends to two local lists, proved to agree with it.
 */
module Explanation {
  import opened Patient
  import opened Seqs
  import opened Text
  import opened RiskEncoding

  /**
   * Number rendering, which the model does not interpret: `repr` is Python's
   * `str` of a float, `raw` prints a reading as the client sent it, and `fixed1`
   * is the `.1f` format.
   */
  datatype Formats = Formats(repr: real -> string, raw: real -> string, fixed1: real -> string)

  /** The encoded categories `predict` passes in (`encoded_active_features`). */
  datatype Encoded = Encoded(cholesterolCat: int, glucoseCat: int)

  /** Everything the factor tests read: the record, the categories and the body-mass index. */
  datatype Context = Context(p: PatientInput, enc: Encoded, bmi: real)

  /** The context of a record with a non-zero height; the index is computed from the height in metres. */
  function ContextOf(p: PatientInput, enc: Encoded): (c: Context)
    requires p.height != 0.0
    ensures c.p == p && c.enc == enc
  {
    var heightM := p.height / 100.0;
    Context(p, enc, p.weight / (heightM * heightM))
  }

  // Fixed wording of the phrases

  const AgePhrase := "advanced age"
  const CriticalCholesterolOpening := "critically high cholesterol levels ("
  const CriticalCholesterolClosing := " mg/dL, well above normal)"
  const ElevatedCholesterolOpening := "elevated cholesterol levels ("
  const ElevatedCholesterolClosing := " mg/dL, above normal)"
  const HighGlucoseOpening := "high fasting glucose levels ("
  const HighGlucoseClosing := " mg/dL, indicative of diabetes)"
  const ElevatedGlucoseOpening := "elevated fasting glucose levels ("
  const ElevatedGlucoseClosing := " mg/dL, prediabetes range)"
  const HypertensionOpening := "hypertension ("
  const HypertensionClosing := " mmHg)"
  const LifestyleOpening := "lifestyle factors ("
  const ObesityOpening := "obesity (BMI "
  const OverweightOpening := "overweight status (BMI "
  const SmokingName := "smoking"
  const AlcoholName := "alcohol consumption"
  const InactivityName := "lack of physical activity"

  // Lifestyle issues

  datatype Issue = SmokingIssue | AlcoholIssue | InactivityIssue

  function IssueRank(i: Issue): int
  {
    match i
    case SmokingIssue => 0
    case AlcoholIssue => 1
    case InactivityIssue => 2
  }

  const IssueOrder: seq<Issue> := [SmokingIssue, AlcoholIssue, InactivityIssue]

  function IssueName(i: Issue): string
  {
    match i
    case SmokingIssue => SmokingName
    case AlcoholIssue => AlcoholName
    case InactivityIssue => InactivityName
  }

  predicate IssueApplies(i: Issue, p: PatientInput)
  {
    match i
    case SmokingIssue => p.smoke == 1
    case AlcoholIssue => p.alco == 1
    case InactivityIssue => p.active == 0
  }

  function IssueTest(p: PatientInput): Issue -> bool
  {
    i => IssueApplies(i, p)
  }

  /** The issues that apply to `p`, in the order smoking, alcohol, inactivity. */
  function Issues(p: PatientInput): seq<Issue>
  {
    Filter(IssueOrder, IssueTest(p))
  }

  /** The names of a list of issues, in the same order. */
  function IssueNames(issues: seq<Issue>): (names: seq<string>)
    ensures |names| == |issues|
  {
    if issues == [] then []
    else IssueNames(issues[..|issues| - 1]) + [IssueName(issues[|issues| - 1])]
  }

  // Factors

  datatype Factor =
    | AdvancedAge
    | CriticalCholesterol
    | ElevatedCholesterol
    | HighGlucose
    | ElevatedGlucose
    | Hypertension
    | LifestyleFactors
    | Obesity
    | Overweight

  /** The order in which the factors are tested. */
  const FactorOrder: seq<Factor> := [AdvancedAge, CriticalCholesterol, ElevatedCholesterol,
    HighGlucose, ElevatedGlucose, Hypertension, LifestyleFactors, Obesity, Overweight]

  /** The group of a factor: age, cholesterol, glucose, blood pressure, lifestyle, weight. */
  function Group(f: Factor): int
  {
    match f
    case AdvancedAge => 0
    case CriticalCholesterol => 1
    case ElevatedCholesterol => 1
    case HighGlucose => 2
    case ElevatedGlucose => 2
    case Hypertension => 3
    case LifestyleFactors => 4
    case Obesity => 5
    case Overweight => 5
  }

  /** When each factor is present, stated independently of the others. */
  predicate Present(f: Factor, c: Context)
  {
    match f
    case AdvancedAge => c.p.age > 60
    case CriticalCholesterol => c.enc.cholesterolCat == 3
    case ElevatedCholesterol => c.enc.cholesterolCat == 2
    case HighGlucose => c.enc.glucoseCat == 3
    case ElevatedGlucose => c.enc.glucoseCat == 2
    case Hypertension => c.p.apHi > 140.0 || c.p.apLo > 90.0
    case LifestyleFactors => c.p.smoke == 1 || c.p.alco == 1 || c.p.active == 0
    case Obesity => c.bmi > 30.0
    case Overweight => 25.0 < c.bmi <= 30.0
  }

  function PresentIn(c: Context): Factor -> bool
  {
    f => Present(f, c)
  }

  /** The factors present in `c`, in testing order. */
  function Factors(c: Context): seq<Factor>
  {
    Filter(FactorOrder, PresentIn(c))
  }

  /** The phrase that names a factor. */
  function Phrase(f: Factor, c: Context, fmt: Formats): string
  {
    match f
    case AdvancedAge => AgePhrase
    case CriticalCholesterol =>
      CriticalCholesterolOpening + fmt.repr(c.p.cholesterol) + CriticalCholesterolClosing
    case ElevatedCholesterol =>
      ElevatedCholesterolOpening + fmt.repr(c.p.cholesterol) + ElevatedCholesterolClosing
    case HighGlucose =>
      HighGlucoseOpening + fmt.repr(c.p.gluc) + HighGlucoseClosing
    case ElevatedGlucose =>
      ElevatedGlucoseOpening + fmt.repr(c.p.gluc) + ElevatedGlucoseClosing
    case Hypertension => HypertensionOpening + fmt.raw(c.p.apHi) + "/" + fmt.raw(c.p.apLo) + HypertensionClosing
    case LifestyleFactors => LifestyleOpening + Join(IssueNames(Issues(c.p)), ", ") + ")"
    case Obesity => ObesityOpening + fmt.fixed1(c.bmi) + ")"
    case Overweight => OverweightOpening + fmt.fixed1(c.bmi) + ")"
  }

  /** The phrases of a list of factors, in the same order. */
  function Phrases(fs: seq<Factor>, c: Context, fmt: Formats): (ps: seq<string>)
    ensures |ps| == |fs|
  {
    if fs == [] then [] else Phrases(fs[..|fs| - 1], c, fmt) + [Phrase(fs[|fs| - 1], c, fmt)]
  }

  /** The `explanations` list for `c`. */
  function FactorPhrases(c: Context, fmt: Formats): seq<string>
  {
    Phrases(Factors(c), c, fmt)
  }

  // The final sentence

  const LowConcernsOpening := "Based on the provided patient data, the model predicts a low cardiovascular risk despite some concerns including "
  const LowConcernsClosing := ". Overall vital signs are stable. Continue maintaining a healthy lifestyle."
  const LowHealthy := "Based on the provided patient data, the model predicts a low cardiovascular risk. All vital parameters and lifestyle indicators appear to be within healthy ranges."
  const ModerateOpening := "Based on the provided patient data, the model predicts a moderate cardiovascular risk, primarily influenced by: "
  const ModerateFallback := "borderline clinical parameters"
  const ModerateClosing := ". Preventive measures and lifestyle adjustments are recommended."
  const HighOpening := "Based on the provided patient data, the model predicts a high cardiovascular risk due to significant factors: "
  const HighFallback := "multiple high-risk clinical factors"
  const HighClosing := ". Immediate consultation with a healthcare provider is strongly advised."

  /** How many factors the sentence of a level quotes at most. */
  function Quoted(level: RiskLevel): nat
  {
    if level == Low then 2 else 3
  }

  /** The explanation sentence for a level and the list of factor phrases. */
  function ExplanationText(level: RiskLevel, phrases: seq<string>): string
  {
    match level
    case Low =>
      if phrases != [] then LowConcernsOpening + Join(Take(phrases, Quoted(level)), ", ") + LowConcernsClosing
      else LowHealthy
    case Moderate =>
      ModerateOpening + (if phrases != [] then Join(Take(phrases, Quoted(level)), "; ") else ModerateFallback)
        + ModerateClosing
    case High =>
      HighOpening + (if phrases != [] then Join(Take(phrases, Quoted(level)), "; ") else HighFallback)
        + HighClosing
  }

  // The method and its proof

  /** The phrases of the factors of `fs` present in `c`, in the order of `fs`. */
  function PhrasesFrom(c: Context, fmt: Formats, fs: seq<Factor>): seq<string>
  {
    Phrases(Filter(fs, PresentIn(c)), c, fmt)
  }

  /** The phrases of two lists of factors, one after the other. */
  lemma {:induction false} PhrasesAppend(a: seq<Factor>, b: seq<Factor>, c: Context, fmt: Formats)
    ensures Phrases(a + b, c, fmt) == Phrases(a, c, fmt) + Phrases(b, c, fmt)
  {
    if b == [] {
      assert a + b == a;
    } else {
      var init, x := b[..|b| - 1], b[|b| - 1];
      assert Phrases(a + b, c, fmt) == Phrases(a + init, c, fmt) + [Phrase(x, c, fmt)] by {
        assert (a + b)[..|a + b| - 1] == a + init;
        assert (a + b)[|a + b| - 1] == x;
      }
      PhrasesAppend(a, init, c, fmt);
      assert Phrases(b, c, fmt) == Phrases(init, c, fmt) + [Phrase(x, c, fmt)];
    }
  }

  /** The phrases of two consecutive parts of the table. */
  lemma PhrasesFromAppend(c: Context, fmt: Formats, a: seq<Factor>, b: seq<Factor>)
    ensures PhrasesFrom(c, fmt, a + b) == PhrasesFrom(c, fmt, a) + PhrasesFrom(c, fmt, b)
  {
    FilterAppend(a, b, PresentIn(c));
    PhrasesAppend(Filter(a, PresentIn(c)), Filter(b, PresentIn(c)), c, fmt);
  }

  /** The phrase a single `if` appends, if any. */
  function OnePhrase(c: Context, fmt: Formats, f: Factor): seq<string>
  {
    if Present(f, c) then [Phrase(f, c, fmt)] else []
  }

  /** The phrase the cholesterol `if`/`elif` pair appends, if any. */
  function CholesterolPhrases(c: Context, fmt: Formats): seq<string>
  {
    if c.enc.cholesterolCat == 3 then [Phrase(CriticalCholesterol, c, fmt)]
    else if c.enc.cholesterolCat == 2 then [Phrase(ElevatedCholesterol, c, fmt)]
    else []
  }

  /** The phrase the glucose `if`/`elif` pair appends, if any. */
  function GlucosePhrases(c: Context, fmt: Formats): seq<string>
  {
    if c.enc.glucoseCat == 3 then [Phrase(HighGlucose, c, fmt)]
    else if c.enc.glucoseCat == 2 then [Phrase(ElevatedGlucose, c, fmt)]
    else []
  }

  /** The phrase the body-mass `if`/`elif` pair appends, if any. */
  function WeightPhrases(c: Context, fmt: Formats): seq<string>
  {
    if c.bmi > 30.0 then [Phrase(Obesity, c, fmt)]
    else if c.bmi > 25.0 then [Phrase(Overweight, c, fmt)]
    else []
  }

  /** The phrase of a single factor of the table. */
  lemma PhraseOfOne(c: Context, fmt: Formats, f: Factor)
    ensures PhrasesFrom(c, fmt, [f]) == OnePhrase(c, fmt, f)
  {
    FilterSingle(f, PresentIn(c));
    if Present(f, c) {
      assert PresentIn(c)(f);
    } else {
      assert !PresentIn(c)(f);
    }
  }

  /** Two neighbouring factors of the table. */
  lemma PairPhrases(c: Context, fmt: Formats, f: Factor, g: Factor)
    ensures PhrasesFrom(c, fmt, [f, g]) == OnePhrase(c, fmt, f) + OnePhrase(c, fmt, g)
  {
    assert [f, g] == [f] + [g];
    PhrasesFromAppend(c, fmt, [f], [g]);
    PhraseOfOne(c, fmt, f);
    PhraseOfOne(c, fmt, g);
  }

  /** The two cholesterol factors give the phrase of the cholesterol `if`/`elif` pair. */
  lemma CholesterolGroup(c: Context, fmt: Formats)
    ensures PhrasesFrom(c, fmt, [CriticalCholesterol, ElevatedCholesterol]) == CholesterolPhrases(c, fmt)
  {
    PairPhrases(c, fmt, CriticalCholesterol, ElevatedCholesterol);
  }

  /** The two glucose factors give the phrase of the glucose `if`/`elif` pair. */
  lemma GlucoseGroup(c: Context, fmt: Formats)
    ensures PhrasesFrom(c, fmt, [HighGlucose, ElevatedGlucose]) == GlucosePhrases(c, fmt)
  {
    PairPhrases(c, fmt, HighGlucose, ElevatedGlucose);
  }

  /** The two weight factors give the phrase of the body-mass `if`/`elif` pair. */
  lemma WeightGroup(c: Context, fmt: Formats)
    ensures PhrasesFrom(c, fmt, [Obesity, Overweight]) == WeightPhrases(c, fmt)
  {
    PairPhrases(c, fmt, Obesity, Overweight);
  }

  /** All factors, grouped as the source tests them. */
  lemma FactorPhrasesByGroup(c: Context, fmt: Formats)
    ensures FactorPhrases(c, fmt)
      == OnePhrase(c, fmt, AdvancedAge) + CholesterolPhrases(c, fmt) + GlucosePhrases(c, fmt)
        + OnePhrase(c, fmt, Hypertension) + OnePhrase(c, fmt, LifestyleFactors) + WeightPhrases(c, fmt)
  {
    var chol := [CriticalCholesterol, ElevatedCholesterol];
    var gluc := [HighGlucose, ElevatedGlucose];
    var weight := [Obesity, Overweight];
    assert FactorOrder == [AdvancedAge] + chol + gluc + [Hypertension] + [LifestyleFactors] + weight;
    PhrasesFromAppend(c, fmt, [AdvancedAge] + chol + gluc + [Hypertension] + [LifestyleFactors], weight);
    PhrasesFromAppend(c, fmt, [AdvancedAge] + chol + gluc + [Hypertension], [LifestyleFactors]);
    PhrasesFromAppend(c, fmt, [AdvancedAge] + chol + gluc, [Hypertension]);
    PhrasesFromAppend(c, fmt, [AdvancedAge] + chol, gluc);
    PhrasesFromAppend(c, fmt, [AdvancedAge], chol);
    PhraseOfOne(c, fmt, AdvancedAge);
    CholesterolGroup(c, fmt);
    GlucoseGroup(c, fmt);
    WeightGroup(c, fmt);
    PhraseOfOne(c, fmt, Hypertension);
    PhraseOfOne(c, fmt, LifestyleFactors);
  }

  /** The name a single lifestyle `if` appends, if any. */
  function OneIssue(p: PatientInput, i: Issue): seq<string>
  {
    if IssueApplies(i, p) then [IssueName(i)] else []
  }

  /** The names of two lists of issues, one after the other. */
  lemma {:induction false} IssueNamesAppend(a: seq<Issue>, b: seq<Issue>)
    ensures IssueNames(a + b) == IssueNames(a) + IssueNames(b)
  {
    if b == [] {
      assert a + b == a;
    } else {
      var init, x := b[..|b| - 1], b[|b| - 1];
      assert IssueNames(a + b) == IssueNames(a + init) + [IssueName(x)] by {
        assert (a + b)[..|a + b| - 1] == a + init;
        assert (a + b)[|a + b| - 1] == x;
      }
      IssueNamesAppend(a, init);
      assert IssueNames(b) == IssueNames(init) + [IssueName(x)];
    }
  }

  /** The name of a single issue of the table, if it applies. */
  lemma IssueOfOne(p: PatientInput, i: Issue)
    ensures IssueNames(Filter([i], IssueTest(p))) == OneIssue(p, i)
  {
    FilterSingle(i, IssueTest(p));
    if IssueApplies(i, p) {
      assert IssueTest(p)(i);
    } else {
      assert !IssueTest(p)(i);
    }
  }

  /** The issue names, one `if` at a time. */
  lemma IssueNamesByStep(p: PatientInput)
    ensures IssueNames(Issues(p))
      == OneIssue(p, SmokingIssue) + OneIssue(p, AlcoholIssue) + OneIssue(p, InactivityIssue)
  {
    var keep := IssueTest(p);
    assert IssueOrder == [SmokingIssue] + [AlcoholIssue] + [InactivityIssue];
    FilterAppend([SmokingIssue] + [AlcoholIssue], [InactivityIssue], keep);
    FilterAppend([SmokingIssue], [AlcoholIssue], keep);
    IssueNamesAppend(Filter([SmokingIssue] + [AlcoholIssue], keep), Filter([InactivityIssue], keep));
    IssueNamesAppend(Filter([SmokingIssue], keep), Filter([AlcoholIssue], keep));
    IssueOfOne(p, SmokingIssue);
    IssueOfOne(p, AlcoholIssue);
    IssueOfOne(p, InactivityIssue);
  }

  /** There is at least one lifestyle issue exactly when the record smokes, drinks or is inactive. */
  lemma SomeIssueIff(p: PatientInput)
    ensures Issues(p) != [] <==> p.smoke == 1 || p.alco == 1 || p.active == 0
  {
    IssueNamesByStep(p);
  }

  /** The `lifestyle_issues` list: one name per applying issue, in the order the source tests them. */
  method CollectLifestyleIssues(p: PatientInput) returns (lifestyleIssues: seq<string>)
    ensures lifestyleIssues == IssueNames(Issues(p))
  {
    lifestyleIssues := [];
    if p.smoke == 1 {
      lifestyleIssues := lifestyleIssues + [SmokingName];
    }
    if p.alco == 1 {
      lifestyleIssues := lifestyleIssues + [AlcoholName];
    }
    if p.active == 0 {
      lifestyleIssues := lifestyleIssues + [InactivityName];
    }
    IssueNamesByStep(p);
  }

  /**
   * The first part of the `explanations` list of `generate_explanation`: the
   * age, cholesterol, glucose and blood-pressure tests, in that order.
   */
  method CollectReadingPhrases(p: PatientInput, enc: Encoded, fmt: Formats) returns (explanations: seq<string>)
    requires p.height != 0.0
    ensures var c := ContextOf(p, enc);
      explanations == OnePhrase(c, fmt, AdvancedAge) + CholesterolPhrases(c, fmt)
        + GlucosePhrases(c, fmt) + OnePhrase(c, fmt, Hypertension)
  {
    var c := ContextOf(p, enc);
    explanations := [];

    if p.age > 60 {
      explanations := explanations + [Phrase(AdvancedAge, c, fmt)];
    }
    ghost var expected := OnePhrase(c, fmt, AdvancedAge);
    assert explanations == expected;

    if enc.cholesterolCat == 3 {
      explanations := explanations + [Phrase(CriticalCholesterol, c, fmt)];
    } else if enc.cholesterolCat == 2 {
      explanations := explanations + [Phrase(ElevatedCholesterol, c, fmt)];
    }
    expected := expected + CholesterolPhrases(c, fmt);
    assert explanations == expected;

    if enc.glucoseCat == 3 {
      explanations := explanations + [Phrase(HighGlucose, c, fmt)];
    } else if enc.glucoseCat == 2 {
      explanations := explanations + [Phrase(ElevatedGlucose, c, fmt)];
    }
    expected := expected + GlucosePhrases(c, fmt);
    assert explanations == expected;

    if p.apHi > 140.0 || p.apLo > 90.0 {
      explanations := explanations + [Phrase(Hypertension, c, fmt)];
    }
  }

  /**
   * The `explanations` list of `generate_explanation`: the phrase of each present
   * factor, in the order the source tests them. The index is computed from the
   * height in metres; the caller has already divided by the height, so it is
   * non-zero here.
   */
  method CollectFactorPhrases(p: PatientInput, enc: Encoded, fmt: Formats) returns (explanations: seq<string>)
    requires p.height != 0.0
    ensures explanations == FactorPhrases(ContextOf(p, enc), fmt)
  {
    var c := ContextOf(p, enc);
    explanations := CollectReadingPhrases(p, enc, fmt);
    ghost var expected := explanations;

    var lifestyleIssues := CollectLifestyleIssues(p);
    SomeIssueIff(p);
    if lifestyleIssues != [] {
      explanations := explanations + [LifestyleOpening + Join(lifestyleIssues, ", ") + ")"];
    }
    expected := expected + OnePhrase(c, fmt, LifestyleFactors);
    assert explanations == expected;

    if c.bmi > 30.0 {
      explanations := explanations + [Phrase(Obesity, c, fmt)];
    } else if c.bmi > 25.0 {
      explanations := explanations + [Phrase(Overweight, c, fmt)];
    }
    expected := expected + WeightPhrases(c, fmt);
    assert explanations == expected;
    FactorPhrasesByGroup(c, fmt);
  }

  /**
   * `generate_explanation`: the factor list, then the sentence of the level, quoting
   * at most two factors for a low level and three otherwise.
   */
  method GenerateExplanation(p: PatientInput, level: RiskLevel, enc: Encoded, fmt: Formats)
    returns (text: string)
    requires p.height != 0.0
    ensures text == ExplanationText(level, FactorPhrases(ContextOf(p, enc), fmt))
  {
    var explanations := CollectFactorPhrases(p, enc, fmt);
    if level == Low {
      if explanations != [] {
        text := LowConcernsOpening + Join(Take(explanations, 2), ", ") + LowConcernsClosing;
      } else {
        text := LowHealthy;
      }
    } else if level == Moderate {
      var reasons := if explanations != [] then Join(Take(explanations, 3), "; ") else ModerateFallback;
      text := ModerateOpening + reasons + ModerateClosing;
    } else {
      var reasons := if explanations != [] then Join(Take(explanations, 3), "; ") else HighFallback;
      text := HighOpening + reasons + HighClosing;
    }
    assert text == ExplanationText(level, explanations);
  }

  // Properties

  /** The server's index is the body-mass index. */
  lemma ContextBmi(p: PatientInput, enc: Encoded)
    requires p.height != 0.0
    ensures ContextOf(p, enc).bmi == Bmi(p)
  {
  }

  /** An issue is listed exactly when it applies. */
  lemma IssuesIff(p: PatientInput, i: Issue)
    ensures i in Issues(p) <==> IssueApplies(i, p)
  {
    FilterMembers(IssueOrder, IssueTest(p), i);
    assert i in IssueOrder by {
      match i
      case SmokingIssue => assert IssueOrder[0] == i;
      case AlcoholIssue => assert IssueOrder[1] == i;
      case InactivityIssue => assert IssueOrder[2] == i;
    }
  }

  /** The issues are listed in the order smoking, alcohol, inactivity, each at most once. */
  lemma IssuesInOrder(p: PatientInput)
    ensures Increasing(Issues(p), IssueRank)
  {
    assert IncreasingAmongKept(IssueOrder, IssueTest(p), IssueRank);
    FilterIncreasing(IssueOrder, IssueTest(p), IssueRank);
  }

  /** A factor is listed exactly when it is present. */
  lemma FactorsIff(c: Context, f: Factor)
    ensures f in Factors(c) <==> Present(f, c)
  {
    FilterMembers(FactorOrder, PresentIn(c), f);
    assert f in FactorOrder by {
      match f
      case AdvancedAge => assert FactorOrder[0] == f;
      case CriticalCholesterol => assert FactorOrder[1] == f;
      case ElevatedCholesterol => assert FactorOrder[2] == f;
      case HighGlucose => assert FactorOrder[3] == f;
      case ElevatedGlucose => assert FactorOrder[4] == f;
      case Hypertension => assert FactorOrder[5] == f;
      case LifestyleFactors => assert FactorOrder[6] == f;
      case Obesity => assert FactorOrder[7] == f;
      case Overweight => assert FactorOrder[8] == f;
    }
  }

  /** Age appears exactly above 60, and each cholesterol and glucose phrase exactly for its category. */
  lemma ReadingFactors(c: Context)
    ensures AdvancedAge in Factors(c) <==> c.p.age > 60
    ensures CriticalCholesterol in Factors(c) <==> c.enc.cholesterolCat == 3
    ensures ElevatedCholesterol in Factors(c) <==> c.enc.cholesterolCat == 2
    ensures HighGlucose in Factors(c) <==> c.enc.glucoseCat == 3
    ensures ElevatedGlucose in Factors(c) <==> c.enc.glucoseCat == 2
  {
    FactorsIff(c, AdvancedAge);
    FactorsIff(c, CriticalCholesterol);
    FactorsIff(c, ElevatedCholesterol);
    FactorsIff(c, HighGlucose);
    FactorsIff(c, ElevatedGlucose);
  }

  /** Hypertension appears exactly above 140 systolic or 90 diastolic, and the lifestyle entry exactly when some issue applies. */
  lemma PressureAndLifestyleFactors(c: Context)
    ensures Hypertension in Factors(c) <==> c.p.apHi > 140.0 || c.p.apLo > 90.0
    ensures LifestyleFactors in Factors(c) <==> Issues(c.p) != []
  {
    FactorsIff(c, Hypertension);
    FactorsIff(c, LifestyleFactors);
    SomeIssueIff(c.p);
  }

  /** Obesity appears above an index of 30 and overweight above 25 up to 30, never both. */
  lemma WeightFactors(c: Context)
    ensures Obesity in Factors(c) <==> c.bmi > 30.0
    ensures Overweight in Factors(c) <==> 25.0 < c.bmi <= 30.0
    ensures !(Obesity in Factors(c) && Overweight in Factors(c))
  {
    FactorsIff(c, Obesity);
    FactorsIff(c, Overweight);
  }

  /** Two present factors never share a group, and the groups come in table order. */
  lemma FactorOrderByGroup(c: Context)
    ensures IncreasingAmongKept(FactorOrder, PresentIn(c), Group)
  {
    forall i, j | 0 <= i < j < |FactorOrder| && PresentIn(c)(FactorOrder[i]) && PresentIn(c)(FactorOrder[j])
      ensures Group(FactorOrder[i]) < Group(FactorOrder[j])
    {
      assert Present(FactorOrder[i], c) && Present(FactorOrder[j], c);
    }
  }

  /**
   * The factors come in the order age, cholesterol, glucose, blood pressure,
   * lifestyle, weight, with at most one of each group, so at most six.
   */
  lemma FactorsInGroupOrder(c: Context, fmt: Formats)
    ensures Increasing(Factors(c), Group)
    ensures |FactorPhrases(c, fmt)| <= 6
  {
    FactorOrderByGroup(c);
    FilterIncreasing(FactorOrder, PresentIn(c), Group);
    IncreasingBound(Factors(c), Group, 0, 6);
  }

  /** The sentence quotes only the leading two (low) or three (otherwise) phrases. */
  lemma ExplanationQuotesLeading(level: RiskLevel, phrases: seq<string>)
    ensures ExplanationText(level, phrases) == ExplanationText(level, Take(phrases, Quoted(level)))
  {
    TakeTake(phrases, Quoted(level));
  }

  /**
   * A record with no factor gets the fixed sentences: the healthy one when the
   * risk is low, and the fallback reasons otherwise.
   */
  lemma NoFactorExplanation(c: Context, fmt: Formats)
    requires forall f :: !Present(f, c)
    ensures FactorPhrases(c, fmt) == []
    ensures ExplanationText(Low, FactorPhrases(c, fmt)) == LowHealthy
    ensures ExplanationText(Moderate, FactorPhrases(c, fmt)) == ModerateOpening + ModerateFallback + ModerateClosing
    ensures ExplanationText(High, FactorPhrases(c, fmt)) == HighOpening + HighFallback + HighClosing
  {
    if Factors(c) != [] {
      FactorsIff(c, Factors(c)[0]);
      assert false;
    }
  }
}
