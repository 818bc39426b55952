/** The feasibility-analysis route: the profile projection handed to the
    recommender, the rule-based fallback recommender, the choice between the
    AI answer and the fallback, the POST that records an analysis
    (IN_PROGRESS, then COMPLETED) with its recommendations, and the GET that lists
    a user's analyses with their recommendations by descending score. */
module Analysis {
  import opened Common
  import opened Profiles

  // ---------------------------------------------------------------------------
  // The profile projection.

  datatype EducationData = EducationData(degree: string, field: string, country: string)

  /** `years` is the length of a finished job in years; null while it is ongoing. */
  datatype WorkData = WorkData(title: string, years: Option<real>)

  datatype LanguageData = LanguageData(language: string, level: string, hasCertificate: bool)

  datatype ProfileData = ProfileData(
    name: string,
    nationality: Option<string>,
    currentCountry: Option<string>,
    age: Option<int>,
    education: seq<EducationData>,
    workExperience: seq<WorkData>,
    languages: seq<LanguageData>)

  const MillisecondsPerYear: int := 1000 * 60 * 60 * 24 * 365

  function WorkYears(w: WorkExperience): Option<real>
  {
    if w.endDate.Some? then Some((w.endDate.value - w.startDate) as real / MillisecondsPerYear as real)
    else None
  }

  function EducationProjection(es: seq<Education>): (r: seq<EducationData>)
    ensures |r| == |es|
    ensures forall i :: 0 <= i < |r| ==> r[i] == EducationData(es[i].degree, es[i].fieldOfStudy, es[i].country)
  {
    if es == [] then []
    else [EducationData(es[0].degree, es[0].fieldOfStudy, es[0].country)] + EducationProjection(es[1..])
  }

  function WorkProjection(ws: seq<WorkExperience>): (r: seq<WorkData>)
    ensures |r| == |ws|
    ensures forall i :: 0 <= i < |r| ==> r[i] == WorkData(ws[i].jobTitle, WorkYears(ws[i]))
  {
    if ws == [] then []
    else [WorkData(ws[0].jobTitle, WorkYears(ws[0]))] + WorkProjection(ws[1..])
  }

  function LanguageProjection(ls: seq<LanguageSkill>): (r: seq<LanguageData>)
    ensures |r| == |ls|
    ensures forall i :: 0 <= i < |r| ==> r[i] == LanguageData(ls[i].language, ls[i].level, ls[i].hasCertificate)
  {
    if ls == [] then []
    else [LanguageData(ls[0].language, ls[0].level, ls[0].hasCertificate)] + LanguageProjection(ls[1..])
  }

  /** The flat profile the recommender sees, built afresh on every call. */
  function ProjectProfile(person: Person, profile: Profile, currentYear: int): (d: ProfileData)
    ensures |d.education| == |profile.education|
    ensures forall i :: 0 <= i < |d.education| ==>
      d.education[i] == EducationData(profile.education[i].degree, profile.education[i].fieldOfStudy, profile.education[i].country)
    ensures |d.workExperience| == |profile.workExperience|
    ensures forall i :: 0 <= i < |d.workExperience| ==>
      d.workExperience[i].title == profile.workExperience[i].jobTitle &&
      (d.workExperience[i].years.None? <==> profile.workExperience[i].endDate.None?)
    ensures |d.languages| == |profile.languages|
    ensures forall i :: 0 <= i < |d.languages| ==>
      d.languages[i] == LanguageData(profile.languages[i].language, profile.languages[i].level, profile.languages[i].hasCertificate)
    ensures d.age.Some? <==> person.birthYear.Some?
    ensures d.age.Some? ==> d.age.value == currentYear - person.birthYear.value
  {
    ProfileData(
      Rendered(person.firstName) + " " + Rendered(person.lastName),
      person.nationality,
      person.currentCountry,
      if person.birthYear.Some? then Some(currentYear - person.birthYear.value) else None,
      EducationProjection(profile.education),
      WorkProjection(profile.workExperience),
      LanguageProjection(profile.languages))
  }

  // ---------------------------------------------------------------------------
  // Recommendations and the fixed fallback catalog.

  datatype Recommendation = Recommendation(
    country: string,
    visaType: string,
    score: int,
    reasoning: string,
    requirements: seq<string>,
    estimatedDuration: string,
    estimatedCost: string)

  const CanadaStudent := Recommendation(
    "Canada", "STUDENT", 85,
    "Excellent choix pour les études supérieures. Le Canada offre des programmes de qualité et des opportunités de résidence permanente après les études.",
    ["Lettre d'acceptation d'une université canadienne", "Preuve de fonds suffisants",
     "Test de langue (IELTS ou TEF)", "Examen médical"],
    "3-6 mois", "150-200 CAD (frais de visa)")

  const FranceStudent := Recommendation(
    "France", "STUDENT", 80,
    "Votre niveau de français est adapté pour des études en France. Système éducatif reconnu internationalement.",
    ["Inscription via Campus France", "Attestation d'acceptation universitaire",
     "Justificatif de ressources (615€/mois minimum)", "Assurance santé"],
    "2-4 mois", "99 EUR (frais Campus France + visa)")

  const UsaStudent := Recommendation(
    "États-Unis", "STUDENT", 75,
    "Les États-Unis offrent de nombreuses opportunités académiques, mais le processus est plus complexe et coûteux.",
    ["Formulaire I-20 d'une université américaine", "Preuve de fonds importants",
     "Test TOEFL ou IELTS", "Entretien à l'ambassade"],
    "3-8 mois", "160-510 USD (frais SEVIS + visa)")

  const BelgiumStudent := Recommendation(
    "Belgique", "STUDENT", 78,
    "Processus relativement simple pour les étudiants africains. Frais de scolarité abordables.",
    ["Préinscription universitaire", "Équivalence de diplômes",
     "Preuve de moyens de subsistance (700€/mois)", "Assurance maladie"],
    "2-5 mois", "200-350 EUR")

  const GermanyStudent := Recommendation(
    "Allemagne", "STUDENT", 82,
    "Éducation de qualité avec de nombreux programmes gratuits ou à faible coût. Bonnes perspectives d'emploi après les études.",
    ["Admission dans une université allemande", "Compte bloqué (11,208 EUR minimum)",
     "Assurance santé", "Preuve de compétences linguistiques (allemand ou anglais)"],
    "6-12 semaines", "75-100 EUR")

  /** The degree the fallback inspects: that of the FIRST education entry only. */
  function HighestDegree(p: ProfileData): string
  {
    if |p.education| > 0 then p.education[0].degree else ""
  }

  /** Substring test, so "Licence professionnelle" qualifies and "Doctorat" does not. */
  predicate DegreeQualifies(p: ProfileData)
  {
    Contains(HighestDegree(p), "Licence") || Contains(HighestDegree(p), "Master")
  }

  /** The level test is JavaScript's string `>=`, not an order on CEFR levels. */
  predicate SpeaksFrenchAtB1(p: ProfileData)
  {
    exists l :: l in p.languages && l.language == "FRENCH" && LexAtLeast(l.level, "B1")
  }

  predicate HasLanguages(p: ProfileData)
  {
    |p.languages| > 0
  }

  datatype Gate = DegreeGate | FrenchGate | NoGate | LanguageGate
  datatype Rule = Rule(gate: Gate, recommendation: Recommendation)

  predicate Passes(g: Gate, p: ProfileData)
  {
    match g
    case DegreeGate => DegreeQualifies(p)
    case FrenchGate => SpeaksFrenchAtB1(p)
    case NoGate => true
    case LanguageGate => HasLanguages(p)
  }

  /** The fallback as a table: each rule, in evaluation order, with its gate. */
  const Rules: seq<Rule> := [
    Rule(DegreeGate, CanadaStudent),
    Rule(FrenchGate, FranceStudent),
    Rule(NoGate, UsaStudent),
    Rule(NoGate, BelgiumStudent),
    Rule(LanguageGate, GermanyStudent)]

  /** What one rule contributes. */
  function Contribution(r: Rule, p: ProfileData): seq<Recommendation>
  {
    if Passes(r.gate, p) then [r.recommendation] else []
  }

  /** The recommendations of the rules whose gate the profile passes, in rule order. */
  function Select(rules: seq<Rule>, p: ProfileData): (r: seq<Recommendation>)
    ensures |r| <= |rules|
    ensures forall x :: x in r <==>
      exists k :: 0 <= k < |rules| && Passes(rules[k].gate, p) && rules[k].recommendation == x
    decreases |rules|
  {
    if rules == [] then []
    else
      var rest := Select(rules[1..], p);
      assert forall k :: 0 <= k < |rules[1..]| ==> rules[1..][k] == rules[k + 1];
      Contribution(rules[0], p) + rest
  }

  /** The reference definition of the fallback's list. */
  function Selected(p: ProfileData): seq<Recommendation>
  {
    Select(Rules, p)
  }

  /** The fallback list spelled out rule by rule. */
  lemma SelectedUnfold(p: ProfileData)
    ensures Selected(p) ==
      (if DegreeQualifies(p) then [CanadaStudent] else []) +
      (if SpeaksFrenchAtB1(p) then [FranceStudent] else []) +
      [UsaStudent] + [BelgiumStudent] +
      (if HasLanguages(p) then [GermanyStudent] else [])
  {
    SelectFive(Rules, p);
    assert Contribution(Rules[0], p) == (if DegreeQualifies(p) then [CanadaStudent] else []);
    assert Contribution(Rules[1], p) == (if SpeaksFrenchAtB1(p) then [FranceStudent] else []);
    assert Contribution(Rules[2], p) == [UsaStudent];
    assert Contribution(Rules[3], p) == [BelgiumStudent];
    assert Contribution(Rules[4], p) == (if HasLanguages(p) then [GermanyStudent] else []);
  }

  lemma SelectFrom(rules: seq<Rule>, k: nat, p: ProfileData)
    requires k < |rules|
    ensures Select(rules[k..], p) == Contribution(rules[k], p) + Select(rules[k + 1..], p)
  {
    assert rules[k..][1..] == rules[k + 1..];
  }

  /** Selecting from five rules concatenates their contributions. */
  lemma SelectFive(rules: seq<Rule>, p: ProfileData)
    requires |rules| == 5
    ensures Select(rules, p) ==
      Contribution(rules[0], p) + Contribution(rules[1], p) + Contribution(rules[2], p) +
      Contribution(rules[3], p) + Contribution(rules[4], p)
  {
    var c0, c1, c2, c3, c4 :=
      Contribution(rules[0], p), Contribution(rules[1], p), Contribution(rules[2], p),
      Contribution(rules[3], p), Contribution(rules[4], p);
    assert rules[5..] == [];
    SelectFrom(rules, 4, p);
    assert Select(rules[4..], p) == c4;
    SelectFrom(rules, 3, p);
    SelectFrom(rules, 2, p);
    assert Select(rules[2..], p) == c2 + (c3 + c4);
    SelectFrom(rules, 1, p);
    SelectFrom(rules, 0, p);
    assert rules[0..] == rules;
    assert Select(rules, p) == c0 + (c1 + (c2 + (c3 + c4)));
    SeqRegroup(c0, c1, c2, c3, c4);
  }

  lemma SeqRegroup<T>(a: seq<T>, b: seq<T>, c: seq<T>, d: seq<T>, e: seq<T>)
    ensures a + (b + (c + (d + e))) == a + b + c + d + e
  {
  }

  /** The summary: counts of education entries, of languages and of recommendations. */
  function Summary(educationCount: nat, languageCount: nat, recommendationCount: nat): string
  {
    "Basé sur votre profil avec " + (DecimalString(educationCount) + (" formation(s) et " +
    (DecimalString(languageCount) + (" langue(s), nous vous recommandons " +
    (DecimalString(recommendationCount) + " destinations adaptées.")))))
  }

  datatype AnalysisResult = AnalysisResult(summary: string, recommendations: seq<Recommendation>)

  function Min(a: int, b: int): int
  {
    if a < b then a else b
  }

  /** The rule-based fallback. It pushes the recommendation of each rule whose
      gate the profile passes, in rule order, then keeps at most five. */
  method GenerateBasicRecommendations(p: ProfileData) returns (r: AnalysisResult)
    ensures r.recommendations == Selected(p)
    ensures r.summary == Summary(|p.education|, |p.languages|, |Selected(p)|)
  {
    var recommendations: seq<Recommendation> := [];
    var highestDegree := HighestDegree(p);
    var hasLanguages := |p.languages| > 0;
    if Contains(highestDegree, "Licence") || Contains(highestDegree, "Master") {
      recommendations := recommendations + [CanadaStudent];
    }
    ghost var canada := if DegreeQualifies(p) then [CanadaStudent] else [];
    assert recommendations == canada;
    if exists l :: l in p.languages && l.language == "FRENCH" && LexAtLeast(l.level, "B1") {
      recommendations := recommendations + [FranceStudent];
    }
    ghost var france := if SpeaksFrenchAtB1(p) then [FranceStudent] else [];
    assert recommendations == canada + france;
    recommendations := recommendations + [UsaStudent];
    recommendations := recommendations + [BelgiumStudent];
    if hasLanguages {
      recommendations := recommendations + [GermanyStudent];
    }
    ghost var germany := if HasLanguages(p) then [GermanyStudent] else [];
    assert recommendations == canada + france + [UsaStudent] + [BelgiumStudent] + germany;
    SelectedUnfold(p);
    assert |recommendations| <= 5;
    assert recommendations[..Min(5, |recommendations|)] == recommendations;
    r := AnalysisResult(
      Summary(|p.education|, |p.languages|, |recommendations|),
      recommendations[..Min(5, |recommendations|)]);
  }

  // ---------------------------------------------------------------------------
  // Properties of the fallback.

  /** Between two and five recommendations, and `slice(0, 5)` never drops one. */
  lemma FallbackSize(p: ProfileData)
    ensures 2 <= |Selected(p)| <= |Rules| == 5
  {
    SelectedUnfold(p);
  }

  /** États-Unis and Belgique are always recommended. */
  lemma FallbackAlwaysHasUsaAndBelgium(p: ProfileData)
    ensures UsaStudent in Selected(p) && BelgiumStudent in Selected(p)
  {
    SelectedUnfold(p);
  }

  /** Canada is recommended exactly when the first degree contains "Licence" or "Master". */
  lemma FallbackCanadaIffDegree(p: ProfileData)
    ensures CanadaStudent in Selected(p) <==> DegreeQualifies(p)
  {
    SelectedUnfold(p);
  }

  /** France is recommended exactly when some FRENCH entry has a level `>= "B1"`. */
  lemma FallbackFranceIffFrench(p: ProfileData)
    ensures FranceStudent in Selected(p) <==> SpeaksFrenchAtB1(p)
  {
    SelectedUnfold(p);
  }

  /** Allemagne is recommended exactly when the profile lists a language. */
  lemma FallbackGermanyIffLanguages(p: ProfileData)
    ensures GermanyStudent in Selected(p) <==> |p.languages| > 0
  {
    SelectedUnfold(p);
  }

  /** Every fallback score lies in [0, 100]. */
  lemma FallbackScoresInRange(p: ProfileData)
    ensures forall x :: x in Selected(p) ==> 0 <= x.score <= 100
  {
    SelectedUnfold(p);
  }

  /** The position of a fallback destination in the rule order. */
  function RuleRank(r: Recommendation): nat
  {
    if r.country == "Canada" then 0
    else if r.country == "France" then 1
    else if r.country == "États-Unis" then 2
    else if r.country == "Belgique" then 3
    else 4
  }

  ghost predicate RanksIncrease(s: seq<Recommendation>)
  {
    forall i, j :: 0 <= i < j < |s| ==> RuleRank(s[i]) < RuleRank(s[j])
  }

  ghost predicate RuleRanksIncrease(rules: seq<Rule>)
  {
    forall i, j :: 0 <= i < j < |rules| ==> RuleRank(rules[i].recommendation) < RuleRank(rules[j].recommendation)
  }

  lemma {:induction false} SelectKeepsRuleOrder(rules: seq<Rule>, p: ProfileData)
    requires RuleRanksIncrease(rules)
    ensures RanksIncrease(Select(rules, p))
    decreases |rules|
  {
    if rules != [] {
      var tail := rules[1..];
      assert RuleRanksIncrease(tail) by {
        forall i, j | 0 <= i < j < |tail|
          ensures RuleRank(tail[i].recommendation) < RuleRank(tail[j].recommendation)
        {
          assert tail[i] == rules[i + 1] && tail[j] == rules[j + 1];
        }
      }
      SelectKeepsRuleOrder(tail, p);
      var rest := Select(tail, p);
      var x := rules[0].recommendation;
      forall y | y in rest
        ensures RuleRank(x) < RuleRank(y)
      {
        var k :| 0 <= k < |tail| && Passes(tail[k].gate, p) && tail[k].recommendation == y;
        assert tail[k] == rules[k + 1];
      }
      if Passes(rules[0].gate, p) {
        PrependLowerRank(x, rest);
      }
    }
  }

  lemma PrependLowerRank(x: Recommendation, rest: seq<Recommendation>)
    requires RanksIncrease(rest)
    requires forall y :: y in rest ==> RuleRank(x) < RuleRank(y)
    ensures RanksIncrease([x] + rest)
  {
    var r := [x] + rest;
    forall i, j | 0 <= i < j < |r| ensures RuleRank(r[i]) < RuleRank(r[j]) {
      assert r[j] == rest[j - 1];
      if i > 0 {
        assert r[i] == rest[i - 1];
      }
    }
  }

  /** The fallback keeps the rule order Canada, France, États-Unis, Belgique,
      Allemagne; it is not ordered by score. */
  lemma FallbackKeepsRuleOrder(p: ProfileData)
    ensures forall i, j :: 0 <= i < j < |Selected(p)| ==>
      RuleRank(Selected(p)[i]) < RuleRank(Selected(p)[j])
  {
    assert forall i :: 0 <= i < |Rules| ==> RuleRank(Rules[i].recommendation) == i;
    assert RuleRanksIncrease(Rules);
    SelectKeepsRuleOrder(Rules, p);
  }

  /** The counts in the summary can be read back: two summaries are equal only
      when they embed the same three counts. */
  lemma SummaryDeterminesCounts(e: nat, l: nat, k: nat, e': nat, l': nat, k': nat)
    requires Summary(e, l, k) == Summary(e', l', k')
    ensures e == e' && l == l' && k == k'
  {
    var p1 := "Basé sur votre profil avec ";
    var s2 := " formation(s) et ";
    var s3 := " langue(s), nous vous recommandons ";
    var s4 := " destinations adaptées.";
    var t3 := DecimalString(k) + s4;
    var t3' := DecimalString(k') + s4;
    var t2 := DecimalString(l) + (s3 + t3);
    var t2' := DecimalString(l') + (s3 + t3');
    var t1 := DecimalString(e) + (s2 + t2);
    var t1' := DecimalString(e') + (s2 + t2');
    assert t1 == (p1 + t1)[|p1|..] == (p1 + t1')[|p1|..] == t1';
    NumeralPrefixUnique(e, s2 + t2, e', s2 + t2');
    assert t2 == (s2 + t2)[|s2|..] == (s2 + t2')[|s2|..] == t2';
    NumeralPrefixUnique(l, s3 + t3, l', s3 + t3');
    assert t3 == (s3 + t3)[|s3|..] == (s3 + t3')[|s3|..] == t3';
    NumeralPrefixUnique(k, s4, k', s4);
  }

  /** JavaScript's `level >= "B1"`: the level starts with a letter after 'B', or
      with 'B' followed by a character at or after '1'. */
  lemma FrenchLevelTest(level: string)
    ensures LexAtLeast(level, "B1") <==>
      |level| > 0 && (level[0] > 'B' || (level[0] == 'B' && |level| > 1 && level[1] >= '1'))
  {
    if |level| > 0 && level[0] == 'B' {
      assert LexLess(level, "B1") == LexLess(level[1..], "1");
      if |level| > 1 {
        assert LexLess(level[1..], "1") ==
          if level[1] != '1' then level[1] < '1' else LexLess(level[2..], "");
      }
    }
  }

  /** Of the levels the profile form offers, B1, B2, C1, C2 and NATIVE pass the
      test and A1 and A2 fail it. */
  lemma OfferedFrenchLevels()
    ensures LexAtLeast("B1", "B1") && LexAtLeast("B2", "B1") && LexAtLeast("C1", "B1")
    ensures LexAtLeast("C2", "B1") && LexAtLeast("NATIVE", "B1")
    ensures !LexAtLeast("A1", "B1") && !LexAtLeast("A2", "B1")
  {
    FrenchLevelTest("B1");
    FrenchLevelTest("B2");
    FrenchLevelTest("C1");
    FrenchLevelTest("C2");
    FrenchLevelTest("NATIVE");
    FrenchLevelTest("A1");
    FrenchLevelTest("A2");
  }

  /** A first degree "Doctorat" does not qualify for Canada. */
  lemma DoctoratDoesNotQualify(p: ProfileData)
    requires |p.education| > 0 && p.education[0].degree == "Doctorat"
    ensures CanadaStudent !in Selected(p)
  {
    var d := "Doctorat";
    ContainsNeedsFirstChar(d, "Licence");
    ContainsNeedsFirstChar(d, "Master");
    FallbackCanadaIffDegree(p);
  }

  /** A profile with a Licence and French at B2 gets all five destinations, in
      rule order, with scores 85, 80, 75, 78, 82. */
  lemma LicenceAndFrenchB2Scenario(p: ProfileData)
    requires |p.education| > 0 && p.education[0].degree == "Licence"
    requires LanguageData("FRENCH", "B2", true) in p.languages
    ensures Selected(p) == [CanadaStudent, FranceStudent, UsaStudent, BelgiumStudent, GermanyStudent]
  {
    assert OccursAt("Licence", "Licence", 0);
    FrenchLevelTest("B2");
    SelectedUnfold(p);
  }

  // ---------------------------------------------------------------------------
  // The AI path and its fallback.

  /** What the completion service gave back, once parsed. `Unavailable` stands for
      every failure the route catches: a network error, a non-ok status, an
      unparseable body. `Answer` carries the parsed `recommendations` (absent when
      the JSON has no such field) and `summary`. */
  datatype AiReply = Unavailable | Answer(recommendations: Option<seq<Recommendation>>, summary: Option<string>)

  const DefaultAiSummary := "Analyse complétée avec succès"

  /** The summary and recommendations of an analysis; the recommendations are
      absent only when the AI answer has none. */
  ghost function ExpectedAnalysis(p: ProfileData, apiKey: Option<string>, reply: AiReply): (string, Option<seq<Recommendation>>)
  {
    if !Truthy(apiKey) || reply.Unavailable? then
      (Summary(|p.education|, |p.languages|, |Selected(p)|), Some(Selected(p)))
    else
      (OrElse(reply.summary, DefaultAiSummary), reply.recommendations)
  }

  /** Without a key, or on any failure, the result is exactly the fallback's; an
      AI answer is passed through unchecked, its scores unclamped. */
  method GenerateAIAnalysis(p: ProfileData, apiKey: Option<string>, reply: AiReply)
    returns (summary: string, recommendations: Option<seq<Recommendation>>)
    ensures !Truthy(apiKey) || reply.Unavailable? ==>
      summary == Summary(|p.education|, |p.languages|, |Selected(p)|) && recommendations == Some(Selected(p))
    ensures Truthy(apiKey) && reply.Answer? ==>
      recommendations == reply.recommendations &&
      (Truthy(reply.summary) ==> summary == reply.summary.value) &&
      (!Truthy(reply.summary) ==> summary == DefaultAiSummary)
    ensures (summary, recommendations) == ExpectedAnalysis(p, apiKey, reply)
  {
    if !Truthy(apiKey) {
      var basic := GenerateBasicRecommendations(p);
      return basic.summary, Some(basic.recommendations);
    }
    match reply
    case Unavailable =>
      var basic := GenerateBasicRecommendations(p);
      summary, recommendations := basic.summary, Some(basic.recommendations);
    case Answer(recs, s) =>
      summary, recommendations := OrElse(s, DefaultAiSummary), recs;
  }

  // ---------------------------------------------------------------------------
  // The analysis store and the two handlers.

  datatype AnalysisStatus = InProgress | Completed

  datatype FeasibilityAnalysis = FeasibilityAnalysis(
    id: nat,
    userId: nat,
    status: AnalysisStatus,
    aiAnalysis: Option<string>,
    completedAt: Option<int>)

  datatype StoredRecommendation = StoredRecommendation(analysisId: nat, recommendation: Recommendation)

  datatype PostOutcome =
    | UserNotFound                  // 404
    | ProfileIncomplete             // 400
    | Created(analysis: FeasibilityAnalysis, recommendations: seq<Recommendation>)
    | ServerError                   // 500

  datatype AnalysisView = AnalysisView(analysis: FeasibilityAnalysis, recommendations: seq<Recommendation>)

  /** The recommendations stored for one analysis, in store order. */
  function RecommendationsFor(stored: seq<StoredRecommendation>, analysisId: nat): (r: seq<Recommendation>)
    ensures forall x :: x in r <==> StoredRecommendation(analysisId, x) in stored
    decreases |stored|
  {
    if stored == [] then []
    else
      var rest := RecommendationsFor(stored[..|stored| - 1], analysisId);
      assert stored == stored[..|stored| - 1] + [stored[|stored| - 1]];
      var last := stored[|stored| - 1];
      rest + (if last.analysisId == analysisId then [last.recommendation] else [])
  }

  /** Each recommendation occurs in the list as often as its row occurs in the store. */
  lemma {:induction false} RecommendationsForCounts(stored: seq<StoredRecommendation>, analysisId: nat)
    ensures forall x ::
      multiset(RecommendationsFor(stored, analysisId))[x] == multiset(stored)[StoredRecommendation(analysisId, x)]
    decreases |stored|
  {
    if stored != [] {
      var front := stored[..|stored| - 1];
      var last := stored[|stored| - 1];
      RecommendationsForCounts(front, analysisId);
      assert stored == front + [last];
      assert multiset(stored) == multiset(front) + multiset{last};
    }
  }

  lemma {:induction false} RecommendationsForAppend(stored: seq<StoredRecommendation>, more: seq<StoredRecommendation>, analysisId: nat)
    ensures RecommendationsFor(stored + more, analysisId) ==
      RecommendationsFor(stored, analysisId) + RecommendationsFor(more, analysisId)
    decreases |more|
  {
    if more != [] {
      var m' := more[..|more| - 1];
      assert (stored + more)[..|stored + more| - 1] == stored + m';
      RecommendationsForAppend(stored, m', analysisId);
    } else {
      assert stored + more == stored;
    }
  }

  /** A list ordered by descending score, as `orderBy: { score: "desc" }` gives it. */
  function ByScoreDescending(recs: seq<Recommendation>): (r: seq<Recommendation>)
    ensures multiset(r) == multiset(recs)
    ensures forall i, j :: 0 <= i < j < |r| ==> r[i].score >= r[j].score
  {
    var key := (x: Recommendation) => -x.score;
    var r := SortByKey(recs, key);
    assert forall i, j :: 0 <= i < j < |r| ==> key(r[i]) <= key(r[j]);
    r
  }

  /** A user's analyses, newest first, each with its recommendations by descending score. */
  function ViewsOf(analyses: seq<FeasibilityAnalysis>, stored: seq<StoredRecommendation>, userId: nat): (r: seq<AnalysisView>)
    ensures forall v :: v in r ==> v.analysis in analyses && v.analysis.userId == userId
    ensures forall a :: a in analyses && a.userId == userId ==> exists v :: v in r && v.analysis == a
    ensures forall v :: v in r ==>
      multiset(v.recommendations) == multiset(RecommendationsFor(stored, v.analysis.id)) &&
      forall i, j :: 0 <= i < j < |v.recommendations| ==> v.recommendations[i].score >= v.recommendations[j].score
    decreases |analyses|
  {
    if analyses == [] then []
    else
      var last := analyses[|analyses| - 1];
      var older := analyses[..|analyses| - 1];
      assert analyses == older + [last];
      var rest := ViewsOf(older, stored, userId);
      if last.userId == userId then
        [AnalysisView(last, ByScoreDescending(RecommendationsFor(stored, last.id)))] + rest
      else
        rest
  }

  predicate ViewIdsDescending(views: seq<AnalysisView>)
  {
    forall i, j :: 0 <= i < j < |views| ==> views[i].analysis.id > views[j].analysis.id
  }

  /** With ids issued in creation order, the views run from the newest analysis
      down, so each of the user's analyses appears once. */
  lemma {:induction false} ViewsNewestFirst(analyses: seq<FeasibilityAnalysis>, stored: seq<StoredRecommendation>, userId: nat)
    requires forall i, j :: 0 <= i < j < |analyses| ==> analyses[i].id < analyses[j].id
    ensures ViewIdsDescending(ViewsOf(analyses, stored, userId))
    decreases |analyses|
  {
    if analyses != [] {
      var last := analyses[|analyses| - 1];
      var older := analyses[..|analyses| - 1];
      assert forall k :: 0 <= k < |older| ==> older[k] == analyses[k];
      ViewsNewestFirst(older, stored, userId);
      var rest := ViewsOf(older, stored, userId);
      if last.userId == userId {
        forall v | v in rest ensures v.analysis.id < last.id {
          var k :| 0 <= k < |older| && older[k] == v.analysis;
        }
        PrependNewerView(AnalysisView(last, ByScoreDescending(RecommendationsFor(stored, last.id))), rest);
      }
    }
  }

  lemma PrependNewerView(v: AnalysisView, rest: seq<AnalysisView>)
    requires ViewIdsDescending(rest)
    requires forall w :: w in rest ==> w.analysis.id < v.analysis.id
    ensures ViewIdsDescending([v] + rest)
  {
    var r := [v] + rest;
    forall i, j | 0 <= i < j < |r| ensures r[i].analysis.id > r[j].analysis.id {
      assert r[j] == rest[j - 1];
      if i > 0 {
        assert r[i] == rest[i - 1];
      }
    }
  }

  /** The outcome and new tables once an analysis is created with id `id` for
      the given summary and recommendations: with recommendations, it is
      COMPLETED and they read back as its rows; without, it stays IN_PROGRESS and
      the route answers 500. */
  ghost predicate Analysed(analyses: seq<FeasibilityAnalysis>, stored: seq<StoredRecommendation>, id: nat, userId: nat,
                           summary: string, recs: Option<seq<Recommendation>>, now: int,
                           outcome: PostOutcome, analyses': seq<FeasibilityAnalysis>,
                           stored': seq<StoredRecommendation>, nextId': nat)
  {
    nextId' == id + 1 &&
    match recs
    case Some(rows) =>
      outcome == Created(FeasibilityAnalysis(id, userId, Completed, Some(summary), Some(now)), rows) &&
      analyses' == analyses + [outcome.analysis] &&
      stored' == stored + RowsFor(id, rows) &&
      RecommendationsFor(stored', id) == rows
    case None =>
      outcome == ServerError &&
      analyses' == analyses + [FeasibilityAnalysis(id, userId, InProgress, None, None)] &&
      stored' == stored
  }

  class AnalysisStore {
    var analyses: seq<FeasibilityAnalysis>
    var recommendations: seq<StoredRecommendation>
    var nextId: nat

    /** Ids are issued in creation order; every recommendation belongs to an
        issued analysis; an analysis has a completion time and a summary exactly
        when it is COMPLETED. */
    ghost predicate Valid()
      reads this
    {
      (forall i :: 0 <= i < |analyses| ==> analyses[i].id < nextId) &&
      (forall i, j :: 0 <= i < j < |analyses| ==> analyses[i].id < analyses[j].id) &&
      (forall i :: 0 <= i < |recommendations| ==> recommendations[i].analysisId < nextId) &&
      (forall i :: 0 <= i < |analyses| ==>
        (analyses[i].status == Completed <==> analyses[i].completedAt.Some?) &&
        (analyses[i].status == Completed <==> analyses[i].aiAnalysis.Some?))
    }

    constructor ()
      ensures Valid() && analyses == [] && recommendations == []
    {
      analyses, recommendations, nextId := [], [], 0;
    }

    /** POST. The caller is `userId`; `person` is what the store holds for it.
        Nothing is written unless the profile has an education entry. */
    method Post(userId: nat, person: Option<Person>, apiKey: Option<string>, reply: AiReply, now: int, currentYear: int)
      returns (outcome: PostOutcome)
      requires Valid()
      modifies this
      ensures Valid()
      ensures person.None? ==> outcome == UserNotFound
      ensures person.Some? && (person.value.profile.None? || |person.value.profile.value.education| == 0) ==>
        outcome == ProfileIncomplete
      ensures outcome.UserNotFound? || outcome.ProfileIncomplete? ==>
        analyses == old(analyses) && recommendations == old(recommendations) && nextId == old(nextId)
      ensures person.Some? && person.value.profile.Some? && |person.value.profile.value.education| > 0 ==>
        var expected := ExpectedAnalysis(ProjectProfile(person.value, person.value.profile.value, currentYear), apiKey, reply);
        Analysed(old(analyses), old(recommendations), old(nextId), userId, expected.0, expected.1, now,
                 outcome, analyses, recommendations, nextId)
    {
      if person.None? {
        return UserNotFound;
      }
      var user := person.value;
      if user.profile.None? || |user.profile.value.education| == 0 {
        return ProfileIncomplete;
      }
      var p := ProjectProfile(user, user.profile.value, currentYear);
      outcome := Analyse(userId, p, apiKey, reply, now);
    }

    /** The part of POST after the checks: create the analysis IN_PROGRESS, ask
        for the recommendations, then record them and complete the analysis. */
    method Analyse(userId: nat, p: ProfileData, apiKey: Option<string>, reply: AiReply, now: int)
      returns (outcome: PostOutcome)
      requires Valid()
      modifies this
      ensures Valid()
      ensures var expected := ExpectedAnalysis(p, apiKey, reply);
        Analysed(old(analyses), old(recommendations), old(nextId), userId, expected.0, expected.1, now,
                 outcome, analyses, recommendations, nextId)
    {
      ghost var before := recommendations;
      ghost var earlier := analyses;
      var id := nextId;
      nextId := nextId + 1;
      analyses := analyses + [FeasibilityAnalysis(id, userId, InProgress, None, None)];
      var summary, recs := GenerateAIAnalysis(p, apiKey, reply);
      if recs.None? {
        // `recommendations.map` on a missing list throws; the analysis stays IN_PROGRESS.
        return ServerError;
      }
      var rows := recs.value;
      var done := Complete(id, userId, summary, rows, now);
      assert analyses == earlier + [done];
      outcome := Created(done, rows);
    }

    /** The recommendations are inserted under the analysis, which is then marked
        COMPLETED with its summary and completion time. */
    method Complete(id: nat, userId: nat, summary: string, rows: seq<Recommendation>, now: int)
      returns (done: FeasibilityAnalysis)
      requires Valid() && id < nextId
      requires |analyses| > 0 && analyses[|analyses| - 1] == FeasibilityAnalysis(id, userId, InProgress, None, None)
      requires forall i :: 0 <= i < |recommendations| ==> recommendations[i].analysisId < id
      modifies this`analyses, this`recommendations
      ensures Valid()
      ensures done == FeasibilityAnalysis(id, userId, Completed, Some(summary), Some(now))
      ensures analyses == old(analyses)[..|old(analyses)| - 1] + [done]
      ensures recommendations == old(recommendations) + RowsFor(id, rows)
      ensures RecommendationsFor(recommendations, id) == rows
    {
      ghost var before := recommendations;
      InsertRecommendations(id, rows);
      done := FeasibilityAnalysis(id, userId, Completed, Some(summary), Some(now));
      analyses := analyses[|analyses| - 1 := done];
      StoredRowsReadBack(before, id, rows);
    }

    /** The batch insert of one analysis's recommendations, one row at a time. */
    method InsertRecommendations(id: nat, rows: seq<Recommendation>)
      requires Valid() && id < nextId
      modifies this`recommendations
      ensures Valid()
      ensures recommendations == old(recommendations) + RowsFor(id, rows)
    {
      var i := 0;
      while i < |rows|
        invariant 0 <= i <= |rows|
        invariant Valid()
        invariant recommendations == old(recommendations) + RowsFor(id, rows[..i])
      {
        assert RowsFor(id, rows[..i + 1]) == RowsFor(id, rows[..i]) + [StoredRecommendation(id, rows[i])];
        recommendations := recommendations + [StoredRecommendation(id, rows[i])];
        i := i + 1;
      }
      assert rows[..i] == rows;
    }

    /** GET: the caller's analyses, newest first, recommendations by descending score. */
    function Get(userId: nat): (r: seq<AnalysisView>)
      reads this
      requires Valid()
      ensures forall v :: v in r ==> v.analysis in analyses && v.analysis.userId == userId
      ensures forall a :: a in analyses && a.userId == userId ==> exists v :: v in r && v.analysis == a
      ensures forall v :: v in r ==>
        multiset(v.recommendations) == multiset(RecommendationsFor(recommendations, v.analysis.id)) &&
        forall i, j :: 0 <= i < j < |v.recommendations| ==> v.recommendations[i].score >= v.recommendations[j].score
      ensures forall i, j :: 0 <= i < j < |r| ==> r[i].analysis.id > r[j].analysis.id
    {
      ViewsNewestFirst(analyses, recommendations, userId);
      ViewsOf(analyses, recommendations, userId)
    }
  }

  /** The rows written for one analysis. */
  function RowsFor(id: nat, rows: seq<Recommendation>): (r: seq<StoredRecommendation>)
  {
    seq(|rows|, k requires 0 <= k < |rows| => StoredRecommendation(id, rows[k]))
  }

  /** Rows written for one analysis read back as the list that was written. */
  lemma {:induction false} OwnRowsRead(rows: seq<Recommendation>, id: nat)
    ensures RecommendationsFor(RowsFor(id, rows), id) == rows
    decreases |rows|
  {
    if rows != [] {
      var front := rows[..|rows| - 1];
      OwnRowsRead(front, id);
      assert RowsFor(id, rows)[..|rows| - 1] == RowsFor(id, front);
      assert rows == front + [rows[|rows| - 1]];
    }
  }

  /** No row stored before an id was issued carries that id. */
  lemma {:induction false} NoRowsForNewId(before: seq<StoredRecommendation>, id: nat)
    requires forall i :: 0 <= i < |before| ==> before[i].analysisId < id
    ensures RecommendationsFor(before, id) == []
    decreases |before|
  {
    if before != [] {
      NoRowsForNewId(before[..|before| - 1], id);
    }
  }

  /** After a new analysis's rows are appended, reading its recommendations back
      gives exactly those rows: no older row carries the new id. */
  lemma StoredRowsReadBack(before: seq<StoredRecommendation>, id: nat, rows: seq<Recommendation>)
    requires forall i :: 0 <= i < |before| ==> before[i].analysisId < id
    ensures RecommendationsFor(before + RowsFor(id, rows), id) == rows
  {
    RecommendationsForAppend(before, RowsFor(id, rows), id);
    NoRowsForNewId(before, id);
    OwnRowsRead(rows, id);
  }
}
