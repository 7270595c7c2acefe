/** generatePDFInsights: the short list of insights written into the downloadable
    report, from the section scores (in points) and the overall percentage. */
module ReportInsights {
  import opened Js
  import Recommendations

  const Unavailable: string := "Survey data analysis was not available for detailed insights."
  const LeadershipGap: string :=
    "Leadership engagement is critical for digital transformation success. Consider establishing an executive steering committee to drive AI initiatives."
  const LeadershipStrength: string :=
    "Your strong leadership support provides excellent foundation for AI adoption and should be leveraged to accelerate transformation."
  const DataGap: string :=
    "Data infrastructure gaps will significantly impact AI effectiveness. Prioritize data governance and integration before scaling AI initiatives."
  const SecurityGap: string :=
    "Cybersecurity vulnerabilities pose immediate risks to your business. Address fundamental security gaps before implementing AI solutions."
  const Opportunity: string :=
    "Your organization has significant opportunity for competitive advantage by addressing these foundational gaps quickly."
  const AdvancedPosition: string :=
    "Your advanced readiness position enables you to focus on innovation and maintaining competitive leadership."

  /** The cap applied by `insights.slice(0, 4)`. */
  const Cap: nat := 4

  /** `sectionScores.section_k < 8`; an undefined score compares false. */
  predicate Below(scores: Recommendations.SectionScores, k: nat) {
    k in scores && scores[k] < 8
  }

  /** `sectionScores.section_k >= 12` */
  predicate AtLeast12(scores: Recommendations.SectionScores, k: nat) {
    k in scores && scores[k] >= 12
  }

  function LeadershipRules(scores: Recommendations.SectionScores): seq<(string, bool)> {
    [(LeadershipGap, Below(scores, 0)), (LeadershipStrength, !Below(scores, 0) && AtLeast12(scores, 0))]
  }

  function DataRule(scores: Recommendations.SectionScores): seq<(string, bool)> {
    [(DataGap, Below(scores, 1))]
  }

  function SecurityRule(scores: Recommendations.SectionScores): seq<(string, bool)> {
    [(SecurityGap, Below(scores, 2))]
  }

  function OverallRules(overall: int): seq<(string, bool)> {
    [(Opportunity, overall < 30), (AdvancedPosition, !(overall < 30) && overall > 70)]
  }

  /** The six checks in the order they run. */
  function Rules(scores: Recommendations.SectionScores, overall: int): (r: seq<(string, bool)>)
    ensures |r| == 6
  {
    LeadershipRules(scores) + DataRule(scores) + SecurityRule(scores) + OverallRules(overall)
  }

  /** The reference definition: the fallback text alone when there are no section
      scores, otherwise the fired insights in rule order, cut to four. */
  function Insights(scores: Option<Recommendations.SectionScores>, overall: int): seq<string> {
    match scores
    case None => [Unavailable]
    case Some(s) => Take(Select(Rules(s, overall)), Cap)
  }

  /** The imperative routine: an early return for missing scores, then conditional
      pushes and the final slice. */
  method GeneratePDFInsights(sectionScores: Option<Recommendations.SectionScores>, overallPercentage: int)
    returns (insights: seq<string>)
    ensures insights == Insights(sectionScores, overallPercentage)
  {
    if sectionScores.None? {
      return [Unavailable];
    }
    var scores := sectionScores.value;
    var lead, data, security, closing := LeadershipRules(scores), DataRule(scores),
      SecurityRule(scores), OverallRules(overallPercentage);
    var list: seq<string> := [];
    if Below(scores, 0) {
      list := list + [LeadershipGap];
    } else if AtLeast12(scores, 0) {
      list := list + [LeadershipStrength];
    }
    SelectTwo(LeadershipGap, Below(scores, 0), LeadershipStrength, !Below(scores, 0) && AtLeast12(scores, 0));
    assert list == Select(lead);
    if Below(scores, 1) {
      list := list + [DataGap];
    }
    SelectOne(DataGap, Below(scores, 1));
    SelectAppend(lead, data);
    assert list == Select(lead + data);
    if Below(scores, 2) {
      list := list + [SecurityGap];
    }
    SelectOne(SecurityGap, Below(scores, 2));
    SelectAppend(lead + data, security);
    assert list == Select(lead + data + security);
    if overallPercentage < 30 {
      list := list + [Opportunity];
    } else if overallPercentage > 70 {
      list := list + [AdvancedPosition];
    }
    SelectTwo(Opportunity, overallPercentage < 30, AdvancedPosition, !(overallPercentage < 30) && overallPercentage > 70);
    SelectAppend(lead + data + security, closing);
    assert list == Select(Rules(scores, overallPercentage));
    insights := Take(list, Cap);
  }

  /** At most one leadership and one overall insight fire, so at most four fire in all
      and the cap never drops one. */
  lemma CapDropsNothing(scores: Recommendations.SectionScores, overall: int)
    ensures |Select(Rules(scores, overall))| <= Cap
    ensures Insights(Some(scores), overall) == Select(Rules(scores, overall))
  {
    var lead, data, security, closing := LeadershipRules(scores), DataRule(scores),
      SecurityRule(scores), OverallRules(overall);
    SelectTwo(LeadershipGap, Below(scores, 0), LeadershipStrength, !Below(scores, 0) && AtLeast12(scores, 0));
    SelectOne(DataGap, Below(scores, 1));
    SelectOne(SecurityGap, Below(scores, 2));
    SelectTwo(Opportunity, overall < 30, AdvancedPosition, !(overall < 30) && overall > 70);
    SelectAppend(lead, data);
    SelectAppend(lead + data, security);
    SelectAppend(lead + data + security, closing);
  }

  /** Without section scores the result is exactly the one fallback text. */
  lemma MissingScores(overall: int)
    ensures Insights(None, overall) == [Unavailable]
  {
  }

  /** Which insights appear, given section scores: the leadership gap exactly when
      section 0 is below 8, the leadership strength exactly when it is 12 or more, the
      data and security gaps exactly when sections 1 and 2 are below 8, the opportunity
      text exactly when the percentage is below 30 and the advanced-position text exactly
      when it is above 70; the fallback text never. */
  lemma InsightMembership(scores: Recommendations.SectionScores, overall: int)
    ensures var r := Insights(Some(scores), overall);
      && (LeadershipGap in r <==> 0 in scores && scores[0] < 8)
      && (LeadershipStrength in r <==> 0 in scores && scores[0] >= 12)
      && (DataGap in r <==> 1 in scores && scores[1] < 8)
      && (SecurityGap in r <==> 2 in scores && scores[2] < 8)
      && (Opportunity in r <==> overall < 30)
      && (AdvancedPosition in r <==> overall > 70)
      && Unavailable !in r
  {
    var rules := Rules(scores, overall);
    CapDropsNothing(scores, overall);
    RulesItems(scores, overall);
    SelectMember(rules, 0);
    SelectMember(rules, 1);
    SelectMember(rules, 2);
    SelectMember(rules, 3);
    SelectMember(rules, 4);
    SelectMember(rules, 5);
    if Unavailable in Select(rules) {
      SelectWithinItems(rules, Unavailable);
    }
  }

  const Texts: seq<string> :=
    [LeadershipGap, LeadershipStrength, DataGap, SecurityGap, Opportunity, AdvancedPosition]

  lemma RulesItems(scores: Recommendations.SectionScores, overall: int)
    ensures Items(Rules(scores, overall)) == Texts
    ensures NoDuplicates(Texts) && Unavailable !in Texts
  {
  }

  /** The insights keep rule order: leadership, data, security, overall. */
  lemma InsightOrder(scores: Recommendations.SectionScores, overall: int)
    ensures IsSubsequence(Insights(Some(scores), overall), Texts)
  {
    var rules := Rules(scores, overall);
    CapDropsNothing(scores, overall);
    RulesItems(scores, overall);
    SelectOrdered(rules);
  }
}
