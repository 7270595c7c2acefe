/** getBusinessInsights: the on-screen insight cards of the results page, one per weak
    area among leadership, data, security and workforce, at most three. */
module BusinessInsights {
  import opened Js
  import Recommendations

  datatype Priority = High | Medium

  datatype Insight = Insight(title: string, description: string, priority: Priority)

  const Leadership: Insight := Insight("Leadership Engagement Needed",
    "Your organization requires stronger executive involvement to drive successful AI transformation.", High)
  const DataInfrastructure: Insight := Insight("Data Infrastructure Priority",
    "Consolidate data systems and establish governance to enable effective AI initiatives.", High)
  const SecurityFoundation: Insight := Insight("Security Foundation Critical",
    "Address cybersecurity gaps before implementing AI solutions to protect business assets.", High)
  const Workforce: Insight := Insight("Workforce Transformation",
    "Invest in change management and training to build employee confidence in new technologies.", Medium)

  /** The cap applied by `insights.slice(0, 3)`. */
  const Cap: nat := 3

  /** `sectionScores.section_k < 8`; an undefined score compares false. */
  predicate Below(scores: Recommendations.SectionScores, k: nat) {
    k in scores && scores[k] < 8
  }

  /** The three high-priority checks (sections 0, 1 and 2), in order. */
  function HighRules(scores: Recommendations.SectionScores): seq<(Insight, bool)> {
    [(Leadership, Below(scores, 0)), (DataInfrastructure, Below(scores, 1)), (SecurityFoundation, Below(scores, 2))]
  }

  /** All four checks in order; the workforce check reads section 4. */
  function Rules(scores: Recommendations.SectionScores): seq<(Insight, bool)> {
    HighRules(scores) + [(Workforce, Below(scores, 4))]
  }

  /** The reference definition: no insights without section scores, otherwise the fired
      checks in order, cut to three. */
  function BusinessInsights(scores: Option<Recommendations.SectionScores>): seq<Insight> {
    match scores
    case None => []
    case Some(s) => Take(Select(Rules(s)), Cap)
  }

  /** The component's routine: pushes guarded by `if (sectionScores)`, then the slice. */
  method GetBusinessInsights(sectionScores: Option<Recommendations.SectionScores>)
    returns (insights: seq<Insight>)
    ensures insights == BusinessInsights(sectionScores)
  {
    var list: seq<Insight> := [];
    if sectionScores.Some? {
      var scores := sectionScores.value;
      if Below(scores, 0) {
        list := list + [Leadership];
      }
      if Below(scores, 1) {
        list := list + [DataInfrastructure];
      }
      if Below(scores, 2) {
        list := list + [SecurityFoundation];
      }
      HighSelect(scores);
      assert list == Select(HighRules(scores));
      if Below(scores, 4) {
        list := list + [Workforce];
      }
      SelectOne(Workforce, Below(scores, 4));
      SelectAppend(HighRules(scores), [(Workforce, Below(scores, 4))]);
    }
    insights := Take(list, Cap);
  }

  /** The high-priority part fires in section order and is at most three long, three
      exactly when all three sections are below 8. */
  lemma HighSelect(scores: Recommendations.SectionScores)
    ensures Select(HighRules(scores))
      == (if Below(scores, 0) then [Leadership] else [])
      + (if Below(scores, 1) then [DataInfrastructure] else [])
      + (if Below(scores, 2) then [SecurityFoundation] else [])
    ensures |Select(HighRules(scores))| == 3 <==> Below(scores, 0) && Below(scores, 1) && Below(scores, 2)
  {
    var rules := HighRules(scores);
    SelectOne(SecurityFoundation, Below(scores, 2));
    SelectTwo(DataInfrastructure, Below(scores, 1), SecurityFoundation, Below(scores, 2));
    assert rules[1..] == [(DataInfrastructure, Below(scores, 1)), (SecurityFoundation, Below(scores, 2))];
  }

  /** Without section scores there are no insights. */
  lemma MissingScores()
    ensures BusinessInsights(None) == []
  {
  }

  /** The four cards differ from each other (by title initial or by priority). */
  lemma CardsDistinct()
    ensures Leadership != DataInfrastructure && Leadership != SecurityFoundation
    ensures DataInfrastructure != SecurityFoundation
    ensures Workforce != Leadership && Workforce != DataInfrastructure && Workforce != SecurityFoundation
  {
    assert Leadership.title[0] == 'L' && DataInfrastructure.title[0] == 'D';
    assert SecurityFoundation.title[0] == 'S';
  }

  /** The high-priority cards present are exactly those whose section is below 8, and
      the workforce card is never among them. */
  lemma HighMembership(scores: Recommendations.SectionScores)
    ensures var high := Select(HighRules(scores));
      && (Leadership in high <==> Below(scores, 0))
      && (DataInfrastructure in high <==> Below(scores, 1))
      && (SecurityFoundation in high <==> Below(scores, 2))
      && Workforce !in high
  {
    HighSelect(scores);
    CardsDistinct();
  }

  /** Which cards appear: leadership, data and security exactly when their section is
      below 8, workforce exactly when section 4 is below 8 and not all three others
      fired (the cap of three drops it then). */
  lemma InsightMembership(scores: Recommendations.SectionScores)
    ensures var r := BusinessInsights(Some(scores));
      && (Leadership in r <==> Below(scores, 0))
      && (DataInfrastructure in r <==> Below(scores, 1))
      && (SecurityFoundation in r <==> Below(scores, 2))
      && (Workforce in r <==> Below(scores, 4) && !(Below(scores, 0) && Below(scores, 1) && Below(scores, 2)))
      && |r| <= Cap
  {
    var high := Select(HighRules(scores));
    var tail := if Below(scores, 4) then [Workforce] else [];
    HighSelect(scores);
    HighMembership(scores);
    CardsDistinct();
    SelectOne(Workforce, Below(scores, 4));
    SelectAppend(HighRules(scores), [(Workforce, Below(scores, 4))]);
    var all := Select(Rules(scores));
    assert all == high + tail;
    var r := Take(all, Cap);
    if |high| == 3 {
      assert r == high;
    } else {
      assert r == all;
      assert Leadership in r <==> Leadership in high;
      assert DataInfrastructure in r <==> DataInfrastructure in high;
      assert SecurityFoundation in r <==> SecurityFoundation in high;
      assert Workforce in r <==> Below(scores, 4);
    }
  }

  /** The card order: the high-priority cards in section order, then the workforce
      card, the whole cut to three. */
  lemma InsightOrder(scores: Recommendations.SectionScores)
    ensures BusinessInsights(Some(scores)) == Take(
      (if Below(scores, 0) then [Leadership] else [])
      + (if Below(scores, 1) then [DataInfrastructure] else [])
      + (if Below(scores, 2) then [SecurityFoundation] else [])
      + (if Below(scores, 4) then [Workforce] else []), Cap)
  {
    HighSelect(scores);
    SelectOne(Workforce, Below(scores, 4));
    SelectAppend(HighRules(scores), [(Workforce, Below(scores, 4))]);
  }

  /** Every card shown has high priority except the workforce card, which is medium. */
  lemma InsightPriorities(scores: Option<Recommendations.SectionScores>)
    ensures forall i :: 0 <= i < |BusinessInsights(scores)| ==>
      (BusinessInsights(scores)[i].priority == Medium <==> BusinessInsights(scores)[i] == Workforce)
  {
    if scores.Some? {
      var rules := Rules(scores.value);
      forall i | 0 <= i < |BusinessInsights(scores)|
        ensures BusinessInsights(scores)[i] in Items(rules)
      {
        SelectWithinItems(rules, BusinessInsights(scores)[i]);
      }
    }
  }
}
