/** The results page: the per-section score bars, the numbered recommendations, the
    e-mail data it resends, and the e-mail status dialog with its buttons. */
module ResultsView {
  import opened Js
  import Survey
  import Recommendations
  import Scoring

  // ---------------------------------------------------------------------------
  // Section score bars
  // ---------------------------------------------------------------------------

  datatype BarColour = Red | Yellow | Green

  /** SectionScoreBar's `Math.round((score / 16) * 100)`: the percentage nearest to
      100 * score / 16, a half rounding up. A score of 0..16 is drawn as 0..100 percent,
      and 0 and 16 give the ends. */
  function BarPercent(score: int): (r: int)
    ensures 32 * r - 16 <= 200 * score < 32 * r + 16
    ensures 0 <= score <= Recommendations.SectionMax ==> 0 <= r <= 100
    ensures score == 0 ==> r == 0
    ensures score == Recommendations.SectionMax ==> r == 100
  {
    RoundedPercent(score, Recommendations.SectionMax)
  }

  /** getStatusColor: red below 50, yellow from 50 below 75, green from 75. */
  function StatusColour(percentage: int): (c: BarColour)
    ensures c == Red <==> percentage < 50
    ensures c == Yellow <==> 50 <= percentage < 75
    ensures c == Green <==> 75 <= percentage
  {
    if percentage < 50 then Red else if percentage < 75 then Yellow else Green
  }

  /** The score handed to a bar: `sectionScores.section_k || 0`, so a missing section
      shows as 0 (and so does a present 0). */
  function DisplayedScore(scores: Recommendations.SectionScores, k: nat): (d: int)
    ensures k in scores ==> d == scores[k]
    ensures k !in scores ==> d == 0
  {
    if k in scores && scores[k] != 0 then scores[k] else 0
  }

  /** In points: a bar is red exactly below 8 points and green exactly from 12 points,
      the same cut-offs as the weak and strong recommendation thresholds. */
  lemma BarColourInPoints(score: int)
    ensures StatusColour(BarPercent(score)) == Red <==> score < 8
    ensures StatusColour(BarPercent(score)) == Green <==> score >= 12
    ensures StatusColour(BarPercent(score)) == Yellow <==> 8 <= score < 12
  {
    assert BarPercent(7) == 44 && BarPercent(8) == 50;
    assert BarPercent(11) == 69 && BarPercent(12) == 75;
    if score < 8 {
      RoundedPercentMonotone(score, 7, 16);
    } else {
      RoundedPercentMonotone(8, score, 16);
    }
    if score < 12 {
      RoundedPercentMonotone(score, 11, 16);
    } else {
      RoundedPercentMonotone(12, score, 16);
    }
  }

  /** A section missing from the scores is drawn as an empty red bar. */
  lemma MissingSectionBar(scores: Recommendations.SectionScores, k: nat)
    requires k !in scores
    ensures BarPercent(DisplayedScore(scores, k)) == 0
    ensures StatusColour(BarPercent(DisplayedScore(scores, k))) == Red
  {
  }

  // ---------------------------------------------------------------------------
  // Strategic recommendations
  // ---------------------------------------------------------------------------

  /** `recommendations.slice(0, 6).map((r, index) => ... index + 1 ...)`: the first six
      entries, each with its number 1, 2, ... in list order. */
  function ShownRecommendations(recommendations: seq<string>): (shown: seq<(nat, string)>)
    ensures |shown| == Min(6, |recommendations|)
    ensures forall i :: 0 <= i < |shown| ==> shown[i] == (i + 1, recommendations[i])
  {
    var top := Take(recommendations, 6);
    seq(|top|, i requires 0 <= i < |top| => (i + 1, top[i]))
  }

  /** With every section at 12 or more the list has seven entries, so its last one, the
      roadmap text, is not among the six shown. */
  lemma RoadmapHiddenWhenAllStrong(scores: Recommendations.SectionScores, overall: int)
    requires forall k :: 0 <= k < Recommendations.SectionCount ==> k in scores && scores[k] >= 12
    requires overall > 70
    ensures var recs := Recommendations.Recommend(scores, overall);
      |recs| == 7 && Recommendations.Roadmap in recs
      && forall i :: 0 <= i < |ShownRecommendations(recs)| ==>
           ShownRecommendations(recs)[i].1 != Recommendations.Roadmap
  {
    Recommendations.AllStrong(scores, overall);
    Recommendations.CatalogueDistinct();
    var recs := Recommendations.Recommend(scores, overall);
    forall i | 0 <= i < |ShownRecommendations(recs)|
      ensures ShownRecommendations(recs)[i].1 != Recommendations.Roadmap
    {
      assert recs[i] == Recommendations.Catalogue[2 + 2 * i];
    }
  }

  // ---------------------------------------------------------------------------
  // The e-mail data and the status dialog
  // ---------------------------------------------------------------------------

  /** The contact details the results page receives: the lead form merged with the
      final contact form. */
  datatype ContactView = ContactView(
    companyName: string, email: string, firstName: string, lastName: string,
    phone: string, companySize: string)

  datatype EmailData = EmailData(
    organization: string, userEmail: string, firstName: string, lastName: string,
    score: int, maxScore: int, percentage: int, riskCategory: string,
    recommendations: seq<string>, levelName: string, level: nat, description: string,
    surveyData: Option<Survey.Answers>, sectionScores: map<nat, int>,
    phone: string, companySize: string)

  /** handleResendEmail's emailData: the addressee, names, phone and company size from
      the contact details, the score fields and recommendations from the results.
      `surveyData` reads a field the results object does not have, so it is always
      undefined. */
  function EmailDataOf(contact: ContactView, data: Scoring.ScoreResult): (e: EmailData)
    ensures e.organization == contact.companyName && e.userEmail == contact.email
    ensures e.firstName == contact.firstName && e.lastName == contact.lastName
    ensures e.phone == contact.phone && e.companySize == contact.companySize
    ensures e.score == data.score && e.maxScore == data.maxScore && e.percentage == data.percentage
    ensures e.riskCategory == data.riskCategory && e.recommendations == data.recommendations
    ensures e.levelName == data.levelName && e.level == data.level && e.description == data.description
    ensures e.sectionScores == data.sectionScores
    ensures e.surveyData == None
  {
    EmailData(contact.companyName, contact.email, contact.firstName, contact.lastName,
      data.score, data.maxScore, data.percentage, data.riskCategory, data.recommendations,
      data.levelName, data.level, data.description, None, data.sectionScores,
      contact.phone, contact.companySize)
  }

  datatype EmailStatus = Idle | Sending | Success | Failure

  /** What the send returned: `results` with its userSent flag, or an exception. */
  datatype SendOutcome = Returned(userSent: bool) | Threw

  /** The dialog's status and whether a send issued by handleResendEmail has not yet
      settled. */
  datatype PanelState = PanelState(status: EmailStatus, awaiting: bool)

  /** The inputs of the status dialog: the debug panel's Test Send button, the dialog's
      Try Again, Close and Cancel buttons, the Resend Report Email link (a `<button>`),
      and a pending send settling. */
  datatype PanelEvent =
    | PressTestSend | PressTryAgain | PressClose | PressCancel | PressResendLink
    | Settle(outcome: SendOutcome)

  /** The dialog's own buttons. */
  predicate OnDialog(e: PanelEvent) {
    e == PressClose || e == PressTryAgain || e == PressCancel
  }

  /** Which inputs are possible in each state. The dialog shows Close on success, Try
      Again and Cancel on failure, and no button while sending or when idle. Its overlay
      covers the page but traps no focus, so the page's link and Test Send stay
      reachable by keyboard in every status; Test Send while a send is still pending
      would start a second one, which the state (one pending flag) does not represent. */
  predicate Enabled(st: PanelState, e: PanelEvent)
    ensures e == PressResendLink ==> Enabled(st, e)
    ensures e == PressTestSend ==> (Enabled(st, e) <==> !st.awaiting)
    ensures Enabled(st, e) && e == PressClose ==> st.status == Success
    ensures Enabled(st, e) && (e == PressTryAgain || e == PressCancel) ==> st.status == Failure
    ensures Enabled(st, e) && (st.status == Idle || st.status == Sending) ==> !OnDialog(e)
    ensures Enabled(st, e) && e.Settle? ==> st.awaiting
  {
    match e
    case PressTestSend => !st.awaiting
    case PressResendLink => true
    case PressClose => st.status == Success
    case PressTryAgain => st.status == Failure
    case PressCancel => st.status == Failure
    case Settle(_) => st.awaiting
  }

  /** The transitions: the two buttons wired to handleResendEmail set 'sending' and issue
      a send; the link sets 'sending' without issuing one; Close and Cancel set 'idle';
      a settled send sets 'success' exactly when the user e-mail was sent. A pending
      send only exists while the dialog shows 'sending', and every step keeps it so. */
  function Step(st: PanelState, e: PanelEvent): (r: PanelState)
    requires Enabled(st, e)
    ensures PanelInv(st) ==> PanelInv(r)
    ensures IssuesSend(e) ==> r == PanelState(Sending, true)
    ensures e.Settle? ==> !r.awaiting && r.status != Sending && r.status != Idle
  {
    match e
    case PressTestSend => PanelState(Sending, true)
    case PressTryAgain => PanelState(Sending, true)
    case PressResendLink => PanelState(Sending, st.awaiting)
    case PressClose => PanelState(Idle, st.awaiting)
    case PressCancel => PanelState(Idle, st.awaiting)
    case Settle(outcome) =>
      PanelState(if outcome == Returned(true) then Success else Failure, false)
  }

  /** Whether an input issues a call to the send service. */
  predicate IssuesSend(e: PanelEvent) {
    e == PressTestSend || e == PressTryAgain
  }

  /** A pending send only exists while the dialog shows 'sending'. */
  predicate PanelInv(st: PanelState) {
    st.awaiting ==> st.status == Sending
  }

  /** A settled send shows success exactly when the service reports the user e-mail as
      sent; a false flag and an exception both show failure. */
  lemma SettleOutcome(st: PanelState, outcome: SendOutcome)
    requires st.awaiting
    ensures Step(st, Settle(outcome)).status == Success <==> outcome.Returned? && outcome.userSent
    ensures Step(st, Settle(outcome)).status == Failure <==> outcome.Threw? || !outcome.userSent
    ensures !Step(st, Settle(outcome)).awaiting
  {
  }

  /** Apart from the 'sending' dialog the link leaves behind, every dialog in a state
      that keeps the invariant offers a way on: Close on success, Try Again on failure,
      and the pending send's settling while sending. */
  lemma OnlyTheLinkStrands(st: PanelState)
    requires PanelInv(st) && st.status != Idle && st != PanelState(Sending, false)
    ensures Enabled(st, PressClose) || Enabled(st, PressTryAgain) || Enabled(st, Settle(Threw))
  {
  }

  /** Close and Cancel always return to idle, which hides the dialog. */
  lemma DismissReturnsToIdle(st: PanelState, e: PanelEvent)
    requires e == PressClose || e == PressCancel
    requires Enabled(st, e)
    ensures Step(st, e).status == Idle
  {
  }

  /** The Resend Report Email link issues no send: from any state with nothing pending
      (idle, success, failure, or an earlier stranded dialog) it leads to a 'sending'
      dialog with nothing pending. That dialog has no button and nothing can settle, so
      only the covered page controls, reachable by keyboard alone, are left. */
  lemma ResendLinkStrands(st: PanelState)
    requires !st.awaiting
    ensures !IssuesSend(PressResendLink)
    ensures Step(st, PressResendLink) == PanelState(Sending, false)
    ensures forall e :: Enabled(Step(st, PressResendLink), e) ==> e == PressTestSend || e == PressResendLink
  {
  }

  /** The results page's e-mail state: its props (the contact details and the score
      result), the dialog state, and the sends issued so far. */
  class EmailStatusPanel {
    const contact: ContactView
    const data: Scoring.ScoreResult
    var status: EmailStatus
    var awaiting: bool
    var sent: seq<EmailData>

    function State(): PanelState
      reads this
    {
      PanelState(status, awaiting)
    }

    ghost predicate Valid()
      reads this
    {
      PanelInv(State())
    }

    /** The page mounted with `contactData` and `data`: `useState('idle')`, nothing sent
        yet. */
    constructor (contactData: ContactView, results: Scoring.ScoreResult)
      ensures contact == contactData && data == results
      ensures Valid() && status == Idle && !awaiting && sent == []
    {
      contact := contactData;
      data := results;
      status := Idle;
      awaiting := false;
      sent := [];
    }

    /** handleResendEmail, reached through Test Send or Try Again: sets 'sending', builds
        the e-mail data from the page's contact details and results, and issues one send
        of it. */
    method HandleResendEmail(e: PanelEvent)
      requires Valid() && IssuesSend(e) && Enabled(State(), e)
      modifies this
      ensures Valid()
      ensures State() == Step(old(State()), e)
      ensures sent == old(sent) + [EmailDataOf(contact, data)]
    {
      status := Sending;
      awaiting := true;
      var emailData := EmailDataOf(contact, data);
      sent := sent + [emailData];
    }

    /** The awaited send settles with `outcome`. */
    method SettleSend(outcome: SendOutcome)
      requires Valid() && awaiting
      modifies this
      ensures Valid()
      ensures State() == Step(old(State()), Settle(outcome))
      ensures sent == old(sent)
    {
      if outcome.Returned? && outcome.userSent {
        status := Success;
      } else {
        status := Failure;
      }
      awaiting := false;
    }

    /** The Close (success) or Cancel (failure) button: `setEmailStatus('idle')`. */
    method Dismiss(e: PanelEvent)
      requires Valid() && (e == PressClose || e == PressCancel) && Enabled(State(), e)
      modifies this
      ensures Valid()
      ensures State() == Step(old(State()), e)
      ensures sent == old(sent)
    {
      status := Idle;
    }

    /** The Resend Report Email link, in any status: `setEmailStatus('sending')` and
        nothing else. */
    method ClickResendLink()
      requires Valid()
      modifies this
      ensures Valid()
      ensures State() == Step(old(State()), PressResendLink)
      ensures sent == old(sent)
    {
      status := Sending;
    }
  }
}
