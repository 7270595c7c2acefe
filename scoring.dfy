/** calculateResults: section sums, the total, the rounded percentage of the maximum
    score 96, the four readiness levels, and the recommendations derived from them. */
module Scoring {
  import opened Js
  import Survey
  import Recommendations

  const TotalQuestions: nat := 24
  const MaxScore: nat := 96

  // ---------------------------------------------------------------------------
  // Sums over maps (Object.values(...).reduce(+) and the totalScore accumulation)
  // ---------------------------------------------------------------------------

  /** The sum of the values of a map, in no particular order. */
  ghost function SumValues(m: map<nat, int>): int
    decreases |m|
  {
    if m == map[] then 0
    else
      var k :| k in m;
      m[k] + SumValues(m - {k})
  }

  /** The sum does not depend on which key is taken out first. */
  lemma {:induction false} SumValuesPick(m: map<nat, int>, k: nat)
    requires k in m
    ensures SumValues(m) == m[k] + SumValues(m - {k})
    decreases |m|
  {
    var j :| j in m && SumValues(m) == m[j] + SumValues(m - {j});
    if j != k {
      var rest := m - {j};
      SumValuesPick(rest, k);
      SumValuesPick(m - {k}, j);
      assert rest - {k} == (m - {k}) - {j};
    }
  }

  /** Setting key k to v replaces its old contribution (0 when absent) by v. */
  lemma SumValuesUpdate(m: map<nat, int>, k: nat, v: int)
    ensures SumValues(m[k := v]) == SumValues(m) - (if k in m then m[k] else 0) + v
  {
    SumValuesPick(m[k := v], k);
    assert m[k := v] - {k} == m - {k};
    if k in m {
      SumValuesPick(m, k);
    } else {
      assert m - {k} == m;
    }
  }

  lemma Distribute(a: int, n: int)
    ensures a * (n + 1) == a * n + a
  {
  }

  /** Values in [lo, hi] give a sum in [lo * |m|, hi * |m|]. */
  lemma {:induction false} SumValuesBounds(m: map<nat, int>, lo: int, hi: int)
    requires forall k :: k in m ==> lo <= m[k] <= hi
    ensures lo * |m| <= SumValues(m) <= hi * |m|
    decreases |m|
  {
    if m != map[] {
      var k :| k in m;
      var rest := m - {k};
      SumValuesPick(m, k);
      assert rest.Keys == m.Keys - {k};
      var n := |rest|;
      assert |m| == n + 1;
      SumValuesBounds(rest, lo, hi);
      Distribute(lo, n);
      Distribute(hi, n);
    }
  }

  // ---------------------------------------------------------------------------
  // Levels
  // ---------------------------------------------------------------------------

  datatype Band = Band(level: nat, levelName: string, riskCategory: string, description: string)

  const EmergingDescription: string :=
    "Your organization is in the early stages of AI and cybersecurity readiness. Focus on foundational elements before advancing to more complex initiatives."
  const ExploringDescription: string :=
    "You've begun exploring AI and cybersecurity initiatives but need to strengthen governance and infrastructure to scale effectively."
  const AdvancingDescription: string :=
    "Your organization shows good progress in AI and cybersecurity readiness. Focus on optimization and scaling your existing initiatives."
  const LeadingDescription: string :=
    "Your organization demonstrates advanced AI and cybersecurity capabilities. Focus on innovation and maintaining your competitive edge."

  /** The if-chain over the percentage: at most 24, at most 49, at most 74, above. */
  function Classify(percentage: int): (b: Band)
    ensures 1 <= b.level <= 4
  {
    if percentage <= 24 then Band(1, "Emerging", "High", EmergingDescription)
    else if percentage <= 49 then Band(2, "Exploring", "Medium", ExploringDescription)
    else if percentage <= 74 then Band(3, "Advancing", "Low", AdvancingDescription)
    else Band(4, "Leading", "Low", LeadingDescription)
  }

  /** Level 1 "Emerging" (risk "High") is 0..24, level 2 "Exploring" ("Medium") is
      25..49, level 3 "Advancing" ("Low") is 50..74 and level 4 "Leading" ("Low") is 75
      and above. */
  lemma ClassifyBands(p: int)
    ensures Classify(p).level == 1 <==> p <= 24
    ensures Classify(p).level == 2 <==> 25 <= p <= 49
    ensures Classify(p).level == 3 <==> 50 <= p <= 74
    ensures Classify(p).level == 4 <==> 75 <= p
    ensures Classify(p).level == 1 ==> Classify(p) == Band(1, "Emerging", "High", EmergingDescription)
    ensures Classify(p).level == 2 ==> Classify(p) == Band(2, "Exploring", "Medium", ExploringDescription)
    ensures Classify(p).level == 3 ==> Classify(p) == Band(3, "Advancing", "Low", AdvancingDescription)
    ensures Classify(p).level == 4 ==> Classify(p) == Band(4, "Leading", "Low", LeadingDescription)
  {
  }

  /** A higher percentage never gives a lower level. */
  lemma ClassifyMonotone(p: int, q: int)
    requires p <= q
    ensures Classify(p).level <= Classify(q).level
  {
  }

  // ---------------------------------------------------------------------------
  // Results
  // ---------------------------------------------------------------------------

  datatype ScoreResult = ScoreResult(
    totalScore: int,
    percentage: int,
    score: int,
    maxScore: int,
    level: nat,
    levelName: string,
    riskCategory: string,
    description: string,
    recommendations: seq<string>,
    keyRisks: seq<string>,
    sectionScores: map<nat, int>)

  /** One score per section present in the survey data: the sum of its answers. */
  ghost function SectionScoresOf(survey: Survey.Answers): map<nat, int> {
    map k | k in survey :: SumValues(survey[k])
  }

  /** What calculateResults returns, as a function of the survey data. */
  ghost function Assess(survey: Survey.Answers): ScoreResult {
    var scores := SectionScoresOf(survey);
    var total := SumValues(scores);
    var percentage := RoundedPercent(total, MaxScore);
    var band := Classify(percentage);
    var recommendations := Recommendations.Recommend(scores, percentage);
    ScoreResult(total, percentage, total, MaxScore, band.level, band.levelName,
      band.riskCategory, band.description, recommendations,
      Recommendations.KeyRisks(recommendations), scores)
  }

  /** `Object.values(sectionAnswers).reduce((sum, score) => sum + parseInt(score || 0), 0)` */
  method SectionTotal(sectionAnswers: map<nat, int>) returns (total: int)
    ensures total == SumValues(sectionAnswers)
  {
    total := 0;
    var remaining := sectionAnswers;
    while remaining != map[]
      invariant total + SumValues(remaining) == SumValues(sectionAnswers)
      decreases |remaining|
    {
      var q :| q in remaining;
      SumValuesPick(remaining, q);
      total := total + remaining[q];
      remaining := remaining - {q};
    }
  }

  /** calculateResults(contactData, surveyData): the forEach over the survey's sections
      writes each section's score and accumulates the total, then the percentage, the
      recommendations and the level are derived from them. */
  method CalculateResults(survey: Survey.Answers) returns (r: ScoreResult)
    ensures r == Assess(survey)
  {
    var sectionScores: map<nat, int> := map[];
    var totalScore := 0;
    var remaining := survey.Keys;
    while remaining != {}
      invariant remaining <= survey.Keys
      invariant sectionScores.Keys == survey.Keys - remaining
      invariant forall k :: k in sectionScores ==> sectionScores[k] == SumValues(survey[k])
      invariant totalScore == SumValues(sectionScores)
      decreases |remaining|
    {
      var k :| k in remaining;
      var sectionTotal := SectionTotal(survey[k]);
      SumValuesUpdate(sectionScores, k, sectionTotal);
      sectionScores := sectionScores[k := sectionTotal];
      totalScore := totalScore + sectionTotal;
      remaining := remaining - {k};
    }
    assert sectionScores == SectionScoresOf(survey);
    var percentage := RoundedPercent(totalScore, MaxScore);
    var recommendations := Recommendations.GenerateDynamicRecommendations(sectionScores, percentage);
    var band := Classify(percentage);
    r := ScoreResult(totalScore, percentage, totalScore, MaxScore, band.level, band.levelName,
      band.riskCategory, band.description, recommendations,
      Recommendations.KeyRisks(recommendations), sectionScores);
  }

  // ---------------------------------------------------------------------------
  // Properties of the results
  // ---------------------------------------------------------------------------

  /** The fields of a result: a score for exactly the sections present, the total of
      those scores (also reported as `score`), the constant maximum 96, the percentage
      nearest to 100 * total / 96 (halves up), the level of that percentage, and the
      first three recommendations as key risks. */
  lemma AssessFields(survey: Survey.Answers)
    ensures var r := Assess(survey);
      && r.sectionScores.Keys == survey.Keys
      && (forall k :: k in survey ==> r.sectionScores[k] == SumValues(survey[k]))
      && r.totalScore == SumValues(r.sectionScores) && r.score == r.totalScore
      && r.maxScore == 96
      && 192 * r.percentage - 96 <= 200 * r.totalScore < 192 * r.percentage + 96
      && r.level == Classify(r.percentage).level
      && r.keyRisks == r.recommendations[..Min(3, |r.recommendations|)]
  {
    var r := Assess(survey);
    assert r.keyRisks == Take(r.recommendations, 3);
  }

  /** A section the survey screen can produce scores 0..16. */
  lemma SectionScoreBounds(sectionAnswers: map<nat, int>)
    requires forall q :: q in sectionAnswers ==>
      q < Survey.QuestionsPerSection && sectionAnswers[q] in Survey.OptionValues
    ensures 0 <= SumValues(sectionAnswers) <= 16
  {
    forall q | q in sectionAnswers ensures 0 <= sectionAnswers[q] <= 4 {
      Survey.OptionValuesInRange(sectionAnswers[q]);
    }
    Survey.CardBelow(sectionAnswers.Keys, Survey.QuestionsPerSection);
    SumValuesBounds(sectionAnswers, 0, 4);
  }

  /** For answers the survey screen can produce, each section scores 0..16, the total
      0..96, the percentage 0..100, and the level 1..4. */
  lemma AssessBounds(survey: Survey.Answers)
    requires Survey.WellFormed(survey)
    ensures var r := Assess(survey);
      && (forall k :: k in r.sectionScores ==> 0 <= r.sectionScores[k] <= 16)
      && 0 <= r.totalScore <= MaxScore
      && 0 <= r.percentage <= 100
      && 1 <= r.level <= 4
  {
    var scores := SectionScoresOf(survey);
    forall k | k in scores ensures 0 <= scores[k] <= 16 {
      SectionScoreBounds(survey[k]);
    }
    assert scores.Keys == survey.Keys;
    Survey.CardBelow(scores.Keys, Survey.SectionCount);
    SumValuesBounds(scores, 0, 16);
    var total := SumValues(scores);
    RoundedPercentMonotone(0, total, MaxScore);
    RoundedPercentMonotone(total, MaxScore, MaxScore);
  }

  /** Raising one answer (or answering a question with a non-negative value) never lowers
      the total score or the percentage. */
  lemma RaisingAnAnswer(survey: Survey.Answers, s: nat, q: nat, v: int)
    requires Survey.Lookup(survey, s, q).None? ==> 0 <= v
    requires Survey.Lookup(survey, s, q).Some? ==> Survey.Lookup(survey, s, q).value <= v
    ensures Assess(survey).totalScore <= Assess(Survey.WithAnswer(survey, s, q, v)).totalScore
    ensures Assess(survey).percentage <= Assess(Survey.WithAnswer(survey, s, q, v)).percentage
  {
    var after := Survey.WithAnswer(survey, s, q, v);
    var m := if s in survey then survey[s] else map[];
    assert after[s] == m[q := v];
    SumValuesUpdate(m, q, v);
    var before, now := SectionScoresOf(survey), SectionScoresOf(after);
    assert now == before[s := SumValues(after[s])];
    SumValuesUpdate(before, s, SumValues(after[s]));
    RoundedPercentMonotone(SumValues(before), SumValues(now), MaxScore);
  }

  /** A complete survey whose 24 answers all equal v scores 4v per section and 24v in
      total. */
  lemma UniformAnswers(survey: Survey.Answers, v: int)
    requires Survey.WellFormed(survey) && Survey.AllComplete(survey)
    requires forall s, q :: s in survey && q in survey[s] ==> survey[s][q] == v
    ensures forall k :: k in SectionScoresOf(survey) ==> SectionScoresOf(survey)[k] == 4 * v
    ensures SumValues(SectionScoresOf(survey)) == TotalQuestions * v
  {
    Survey.CompleteAnswersCount(survey);
    forall k | k in survey ensures SumValues(survey[k]) == 4 * v {
      assert |survey[k]| == 4;
      SumValuesBounds(survey[k], v, v);
    }
    var scores := SectionScoresOf(survey);
    assert scores.Keys == survey.Keys;
    assert |scores| == 6;
    SumValuesBounds(scores, 4 * v, 4 * v);
  }

  /** Full marks: 96 points, 100%, level 4 "Leading", and the roadmap is recommended. */
  lemma FullMarks(survey: Survey.Answers)
    requires Survey.WellFormed(survey) && Survey.AllComplete(survey)
    requires forall s, q :: s in survey && q in survey[s] ==> survey[s][q] == 4
    ensures Assess(survey).totalScore == 96 && Assess(survey).percentage == 100
    ensures Assess(survey).level == 4 && Assess(survey).levelName == "Leading"
    ensures Recommendations.Roadmap in Assess(survey).recommendations
  {
    UniformAnswers(survey, 4);
    Recommendations.RecommendMembership(Assess(survey).sectionScores, 100, 0);
  }

  /** No points: 0%, level 1 "Emerging" with risk "High", and the foundational text
      leads the recommendations. */
  lemma NoPoints(survey: Survey.Answers)
    requires Survey.WellFormed(survey) && Survey.AllComplete(survey)
    requires forall s, q :: s in survey && q in survey[s] ==> survey[s][q] == 0
    ensures Assess(survey).totalScore == 0 && Assess(survey).percentage == 0
    ensures Assess(survey).level == 1 && Assess(survey).riskCategory == "High"
    ensures var recs := Assess(survey).recommendations;
      recs != [] && recs[0] == Recommendations.Foundational
  {
    UniformAnswers(survey, 0);
    Recommendations.RecommendEnds(Assess(survey).sectionScores, 0);
  }
}
