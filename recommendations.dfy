/** generateDynamicRecommendations: one weak and one strong recommendation per survey
    section, chosen by the section's score, plus an overall foundational or roadmap
    recommendation chosen by the overall percentage; de-duplicated and capped at 8. */
module Recommendations {
  import opened Js

  /** Section index -> section score; a section the survey data lacks has no key. */
  type SectionScores = map<nat, int>

  const SectionCount: nat := 6

  /** The greatest score one section can reach: four answers of value 4. */
  const SectionMax: nat := 16

  const Foundational: string :=
    "Focus on foundational cybersecurity and data management before investing in advanced AI solutions"
  const Roadmap: string :=
    "Develop a strategic roadmap for AI innovation and competitive differentiation"

  /** WeakText[k] is pushed for a low score in section k. */
  const WeakText: seq<string> := [
    "Establish an AI steering committee with executive sponsorship to drive strategic alignment and resource allocation",
    "Implement a data governance framework and consolidate data systems to create a reliable foundation for AI initiatives",
    "Prioritize cybersecurity investments including MFA, endpoint protection, and employee security awareness training",
    "Develop comprehensive AI usage policies and establish an AI governance framework to ensure responsible adoption",
    "Launch a comprehensive change management program with targeted training to build employee confidence in new technologies",
    "Implement regular assessment processes and create documented procedures for continuous improvement"
  ]

  /** StrongText[k] is pushed for a high score in section k (the wording of section 1's
      text is kept as the application shows it). */
  const StrongText: seq<string> := [
    "Leverage your strong leadership support to accelerate AI adoption across the organization",
    "Advanced your data infrastructure with real-time analytics and automated data quality controls",
    "Implement advanced threat detection and automated security response systems",
    "Create an AI innovation lab to explore emerging technologies and maintain competitive advantage",
    "Establish an internal AI ambassador program to scale best practices and drive continuous learning",
    "Develop advanced analytics capabilities to measure and optimize ROI from technology investments"
  ]

  /** Every text the derivation can produce, in the order it can produce them. */
  const Catalogue: seq<string> := [
    Foundational,
    WeakText[0], StrongText[0], WeakText[1], StrongText[1], WeakText[2], StrongText[2],
    WeakText[3], StrongText[3], WeakText[4], StrongText[4], WeakText[5], StrongText[5],
    Roadmap
  ]

  /** `(score / 16) * 100 < 50` for a present score; an undefined score compares false. */
  predicate IsWeak(scores: SectionScores, k: nat) {
    k in scores && scores[k] * 100 < 50 * SectionMax
  }

  /** `(score / 16) * 100 >= 75` for a present score. */
  predicate IsStrong(scores: SectionScores, k: nat) {
    k in scores && scores[k] * 100 >= 75 * SectionMax
  }

  /** The section thresholds in whole points: below 50% is below 8, 75% or more is 12 or more. */
  lemma ThresholdsInPoints(scores: SectionScores, k: nat)
    ensures IsWeak(scores, k) <==> k in scores && scores[k] < 8
    ensures IsStrong(scores, k) <==> k in scores && scores[k] >= 12
  {
  }

  /** The two pushes of section k: weak, else (if strong) strong. */
  function SectionPair(scores: SectionScores, k: nat): seq<(string, bool)>
    requires k < SectionCount
  {
    [(WeakText[k], IsWeak(scores, k)), (StrongText[k], !IsWeak(scores, k) && IsStrong(scores, k))]
  }

  /** The pushes of sections 0 .. n-1, in section order. */
  function SectionRules(scores: SectionScores, n: nat): (r: seq<(string, bool)>)
    requires n <= SectionCount
    ensures |r| == 2 * n
  {
    if n == 0 then [] else SectionRules(scores, n - 1) + SectionPair(scores, n - 1)
  }

  /** All fourteen candidate pushes in output order: the foundational text is unshifted
      in front when the overall percentage is below 30, otherwise the roadmap text is
      appended when it is above 70. */
  function Rules(scores: SectionScores, overall: int): (r: seq<(string, bool)>)
    ensures |r| == 14
  {
    [(Foundational, overall < 30)]
    + SectionRules(scores, SectionCount)
    + [(Roadmap, !(overall < 30) && overall > 70)]
  }

  /** The reference definition of the returned list: the fired candidates, in order. */
  function Recommend(scores: SectionScores, overall: int): seq<string> {
    Select(Rules(scores, overall))
  }

  /** The imperative derivation: six section checks pushing onto a list, the overall
      unshift or push, then `[...new Set(list)].slice(0, 8)`. */
  method GenerateDynamicRecommendations(scores: SectionScores, overall: int)
    returns (recommendations: seq<string>)
    ensures recommendations == Recommend(scores, overall)
    ensures NoDuplicates(recommendations) && |recommendations| <= 7
  {
    var list: seq<string> := [];
    for k := 0 to SectionCount
      invariant list == Select(SectionRules(scores, k))
      invariant |list| <= k
    {
      SelectAppend(SectionRules(scores, k), SectionPair(scores, k));
      SelectTwo(WeakText[k], IsWeak(scores, k), StrongText[k], !IsWeak(scores, k) && IsStrong(scores, k));
      if IsWeak(scores, k) {
        list := list + [WeakText[k]];
      } else if IsStrong(scores, k) {
        list := list + [StrongText[k]];
      }
    }
    var sections := SectionRules(scores, SectionCount);
    var first, last := [(Foundational, overall < 30)], [(Roadmap, !(overall < 30) && overall > 70)];
    SelectAppend(first, sections);
    SelectAppend(first + sections, last);
    if overall < 30 {
      list := [Foundational] + list;
    } else if overall > 70 {
      list := list + [Roadmap];
    }
    assert list == Recommend(scores, overall);
    RulesItems(scores, overall);
    SelectOrdered(Rules(scores, overall));
    recommendations := Take(Dedupe(list), 8);
  }

  // ---------------------------------------------------------------------------
  // Properties of the derivation
  // ---------------------------------------------------------------------------

  lemma CatalogueDistinct()
    ensures NoDuplicates(Catalogue)
  {
  }

  lemma CatalogueAt(k: nat)
    requires k < SectionCount
    ensures Catalogue[1 + 2 * k] == WeakText[k] && Catalogue[2 + 2 * k] == StrongText[k]
  {
  }

  lemma {:induction false} SectionRulesAt(scores: SectionScores, n: nat, k: nat)
    requires k < n <= SectionCount
    ensures SectionRules(scores, n)[2 * k] == (WeakText[k], IsWeak(scores, k))
    ensures SectionRules(scores, n)[2 * k + 1] == (StrongText[k], !IsWeak(scores, k) && IsStrong(scores, k))
  {
    if k < n - 1 {
      SectionRulesAt(scores, n - 1, k);
    }
  }

  /** Candidate 0 is the foundational text, candidates 1 + 2k and 2 + 2k are section k's
      weak and strong texts, and candidate 13 is the roadmap text. */
  lemma RulesAt(scores: SectionScores, overall: int, k: nat)
    requires k < SectionCount
    ensures Rules(scores, overall)[0] == (Foundational, overall < 30)
    ensures Rules(scores, overall)[1 + 2 * k] == (WeakText[k], IsWeak(scores, k))
    ensures Rules(scores, overall)[2 + 2 * k] == (StrongText[k], !IsWeak(scores, k) && IsStrong(scores, k))
    ensures Rules(scores, overall)[13] == (Roadmap, !(overall < 30) && overall > 70)
  {
    SectionRulesAt(scores, SectionCount, k);
  }

  /** The candidates are the catalogue, which has no repeated text. */
  lemma RulesItems(scores: SectionScores, overall: int)
    ensures Items(Rules(scores, overall)) == Catalogue
    ensures NoDuplicates(Items(Rules(scores, overall)))
  {
    var rules := Rules(scores, overall);
    forall i | 0 <= i < 14 ensures Items(rules)[i] == Catalogue[i] {
      if 1 <= i <= 12 {
        var k := (i - 1) / 2;
        RulesAt(scores, overall, k);
        CatalogueAt(k);
        assert i == 1 + 2 * k || i == 2 + 2 * k;
      } else {
        RulesAt(scores, overall, 0);
      }
    }
    CatalogueDistinct();
  }

  /** Which texts are returned: section k's weak text exactly when its score is present
      and below 8, its strong text exactly when it is present and 12 or more, the
      foundational text exactly when the percentage is below 30 and the roadmap text
      exactly when it is above 70. */
  lemma RecommendMembership(scores: SectionScores, overall: int, k: nat)
    requires k < SectionCount
    ensures WeakText[k] in Recommend(scores, overall) <==> k in scores && scores[k] < 8
    ensures StrongText[k] in Recommend(scores, overall) <==> k in scores && scores[k] >= 12
    ensures Foundational in Recommend(scores, overall) <==> overall < 30
    ensures Roadmap in Recommend(scores, overall) <==> overall > 70
  {
    var rules := Rules(scores, overall);
    RulesItems(scores, overall);
    RulesAt(scores, overall, k);
    SelectMember(rules, 1 + 2 * k);
    SelectMember(rules, 2 + 2 * k);
    SelectMember(rules, 0);
    SelectMember(rules, 13);
  }

  /** Nothing else is returned, the order is the catalogue order, no text repeats, and
      at most one text per section plus one overall text makes at most 7. */
  lemma RecommendShape(scores: SectionScores, overall: int)
    ensures IsSubsequence(Recommend(scores, overall), Catalogue)
    ensures NoDuplicates(Recommend(scores, overall))
    ensures |Recommend(scores, overall)| <= 7
  {
    RulesItems(scores, overall);
    SelectOrdered(Rules(scores, overall));
    RecommendLength(scores, overall);
  }

  lemma {:induction false} SectionRulesLength(scores: SectionScores, n: nat)
    requires n <= SectionCount
    ensures |Select(SectionRules(scores, n))| <= n
  {
    if n > 0 {
      SectionRulesLength(scores, n - 1);
      SelectAppend(SectionRules(scores, n - 1), SectionPair(scores, n - 1));
      var k := n - 1;
      SelectTwo(WeakText[k], IsWeak(scores, k), StrongText[k], !IsWeak(scores, k) && IsStrong(scores, k));
    }
  }

  lemma RecommendLength(scores: SectionScores, overall: int)
    ensures |Recommend(scores, overall)| <= 7
  {
    var first, sections := [(Foundational, overall < 30)], SectionRules(scores, SectionCount);
    SelectAppend(first, sections);
    SelectAppend(first + sections, [(Roadmap, !(overall < 30) && overall > 70)]);
    SectionRulesLength(scores, SectionCount);
  }

  /** The foundational text comes first exactly when the percentage is below 30, and the
      roadmap text is then absent; when the roadmap text fires it comes last. */
  lemma RecommendEnds(scores: SectionScores, overall: int)
    ensures var r := Recommend(scores, overall);
      (r != [] && r[0] == Foundational) <==> overall < 30
    ensures var r := Recommend(scores, overall);
      overall > 70 ==> r != [] && r[|r| - 1] == Roadmap
  {
    var first, sections := [(Foundational, overall < 30)], SectionRules(scores, SectionCount);
    var last := [(Roadmap, !(overall < 30) && overall > 70)];
    SelectAppend(first, sections);
    SelectAppend(first + sections, last);
    RecommendMembership(scores, overall, 0);
  }

  lemma {:induction false} AllStrongSections(scores: SectionScores, n: nat)
    requires n <= SectionCount
    requires forall k :: 0 <= k < n ==> k in scores && scores[k] >= 12
    ensures Select(SectionRules(scores, n)) == StrongText[..n]
  {
    if n > 0 {
      var k := n - 1;
      AllStrongSections(scores, k);
      SelectAppend(SectionRules(scores, k), SectionPair(scores, k));
      SelectTwo(WeakText[k], IsWeak(scores, k), StrongText[k], !IsWeak(scores, k) && IsStrong(scores, k));
      assert StrongText[..n] == StrongText[..k] + [StrongText[k]];
    }
  }

  /** When every section scores 12 or more and the percentage is above 70, the list is
      the six strong texts followed by the roadmap text: seven entries. */
  lemma AllStrong(scores: SectionScores, overall: int)
    requires forall k :: 0 <= k < SectionCount ==> k in scores && scores[k] >= 12
    requires overall > 70
    ensures Recommend(scores, overall) == StrongText + [Roadmap]
  {
    var first, sections := [(Foundational, overall < 30)], SectionRules(scores, SectionCount);
    SelectAppend(first, sections);
    SelectAppend(first + sections, [(Roadmap, !(overall < 30) && overall > 70)]);
    AllStrongSections(scores, SectionCount);
    assert StrongText[..SectionCount] == StrongText;
  }

  /** `key_risks`: the first three recommendations (or all of them when fewer). */
  function KeyRisks(recommendations: seq<string>): (r: seq<string>)
    ensures |r| == Min(3, |recommendations|)
    ensures IsPrefix(r, recommendations)
  {
    Take(recommendations, 3)
  }

  predicate IsPrefix<T(==)>(r: seq<T>, s: seq<T>) {
    |r| <= |s| && r == s[..|r|]
  }
}
