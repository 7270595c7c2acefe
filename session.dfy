/** The assessment session: the four steps lead, survey, contact and results, the report
    payload merged from the three forms and the score, and the guard that skips sending
    a report with missing contact details. */
module Session {
  import opened Js
  import Survey
  import Scoring
  import LeadCapture
  import FinalContact
  import ResultsView

  datatype Step = LeadStep | SurveyStep | ContactStep | ResultsStep

  /** The position of a step in the fixed order lead, survey, contact, results. */
  function StepIndex(s: Step): nat {
    match s
    case LeadStep => 0
    case SurveyStep => 1
    case ContactStep => 2
    case ResultsStep => 3
  }

  /** fullReportData: the lead fields, the contact fields, the score and the answers,
      with organization, user_email and the names set explicitly. */
  datatype ReportPayload = ReportPayload(
    organization: string, userEmail: string, firstName: string, lastName: string,
    companyName: string, email: string, companySize: string, phone: string,
    agreedToReceiveReport: bool, result: Scoring.ScoreResult, surveyData: Survey.Answers)

  /** `a || b` on strings: the first unless it is empty. */
  function OrElse(a: string, b: string): (r: string)
    ensures a != "" ==> r == a
    ensures a == "" ==> r == b
  {
    if a != "" then a else b
  }

  /** The contact form submits no e-mail field, so `data.email` is undefined and falls
      through to the lead's address. */
  const ContactEmail: string := ""

  /** The report names the lead's company as the organization and goes to the lead's
      address; names, size, phone and consent come from the contact form, with the score
      and the answers. */
  function FullReport(lead: LeadCapture.LeadData, contact: FinalContact.ContactData,
                      result: Scoring.ScoreResult, survey: Survey.Answers): (p: ReportPayload)
    ensures p.organization == lead.companyName && p.userEmail == lead.email
    ensures p.companyName == lead.companyName && p.email == lead.email
    ensures p.firstName == contact.firstName && p.lastName == contact.lastName
    ensures p.companySize == contact.companySize && p.phone == contact.phone
    ensures p.agreedToReceiveReport == contact.agreedToReceiveReport
    ensures p.result == result && p.surveyData == survey
  {
    ReportPayload(lead.companyName, OrElse(ContactEmail, lead.email), contact.firstName, contact.lastName,
      lead.companyName, lead.email, contact.companySize, contact.phone,
      contact.agreedToReceiveReport, result, survey)
  }

  /** A string is falsy exactly when it is empty. */
  predicate Falsy(s: string) {
    s == ""
  }

  /** sendEmailReport's guard `if (!organization || !user_email || !firstName ||
      !lastName) return`: a report goes out exactly when all four are non-empty. */
  function ShouldSend(p: ReportPayload): (send: bool)
    ensures send <==> p.organization != "" && p.userEmail != "" && p.firstName != "" && p.lastName != ""
  {
    !(Falsy(p.organization) || Falsy(p.userEmail) || Falsy(p.firstName) || Falsy(p.lastName))
  }

  /** The payload names the lead's company as the organization and sends to the lead's
      address; the guard blocks exactly when the company name, the lead's e-mail or one
      of the contact's names is empty, and nothing else (phone, company size, consent,
      the score) has a say. */
  lemma GuardInTermsOfForms(lead: LeadCapture.LeadData, contact: FinalContact.ContactData,
                            result: Scoring.ScoreResult, survey: Survey.Answers)
    ensures FullReport(lead, contact, result, survey).organization == lead.companyName
    ensures FullReport(lead, contact, result, survey).userEmail == lead.email
    ensures !ShouldSend(FullReport(lead, contact, result, survey)) <==>
      lead.companyName == "" || lead.email == "" || contact.firstName == "" || contact.lastName == ""
  {
  }

  /** Data that passed both forms' checks is always sent: the forms require what the
      guard tests, so the guard never fires along the normal flow. */
  lemma ValidatedFormsAreSent(lead: LeadCapture.LeadData, contact: FinalContact.ContactData,
                              result: Scoring.ScoreResult, survey: Survey.Answers)
    requires LeadCapture.LeadErrors(lead) == map[]
    requires FinalContact.ContactErrors(contact) == map[]
    ensures ShouldSend(FullReport(lead, contact, result, survey))
  {
    LeadCapture.AcceptedLeadNonEmpty(lead);
    FinalContact.AcceptedContactNonEmpty(contact);
  }

  /** The guard tests non-emptiness only, so a non-empty, white-space-only first name,
      which the contact form rejects, would pass it. */
  lemma GuardWeakerThanForm(lead: LeadCapture.LeadData, contact: FinalContact.ContactData,
                            result: Scoring.ScoreResult, survey: Survey.Answers)
    requires lead.companyName != "" && lead.email != "" && contact.lastName != ""
    requires contact.firstName != "" && IsBlank(contact.firstName)
    ensures ShouldSend(FullReport(lead, contact, result, survey))
    ensures FinalContact.FirstName in FinalContact.ContactErrors(contact)
  {
    FinalContact.ContactErrorsSpec(contact);
  }

  /** `{ ...leadData, ...contactData }` as the results page receives it. The contact form
      has no company or e-mail field, so those two keep the lead's values; the names,
      phone and company size are the contact form's. */
  function MergeContact(lead: LeadCapture.LeadData, contact: FinalContact.ContactData): (v: ResultsView.ContactView)
    ensures v.companyName == lead.companyName && v.email == lead.email
    ensures v.firstName == contact.firstName && v.lastName == contact.lastName
    ensures v.phone == contact.phone && v.companySize == contact.companySize
  {
    ResultsView.ContactView(lead.companyName, lead.email, contact.firstName, contact.lastName,
      contact.phone, contact.companySize)
  }

  /** The results page's resend carries the same organization, address, names and score
      as the report sent on submit, but never the answers. */
  lemma ResendMatchesReport(lead: LeadCapture.LeadData, contact: FinalContact.ContactData,
                            result: Scoring.ScoreResult, survey: Survey.Answers)
    ensures var p := FullReport(lead, contact, result, survey);
      var e := ResultsView.EmailDataOf(MergeContact(lead, contact), result);
      e.organization == p.organization && e.userEmail == p.userEmail
      && e.firstName == p.firstName && e.lastName == p.lastName
      && e.score == p.result.score && e.recommendations == p.result.recommendations
      && e.surveyData == None && p.surveyData == survey
  {
  }

  /** The App component's state. The `{}` initial objects are absent values here: a form's
      data exists from the step after its own. `reportsSent` records the payloads that
      passed the guard and were handed to the send service. */
  class AppSession {
    var currentStep: Step
    var leadData: Option<LeadCapture.LeadData>
    var surveyData: Option<Survey.Answers>
    var contactData: Option<FinalContact.ContactData>
    var resultsData: Option<Scoring.ScoreResult>
    var reportsSent: seq<ReportPayload>

    /** Each step has the data of the steps before it; the results are the score of the
        stored answers; and, with each handler taken as one atomic step, at most one report
        is sent, on entering the results step. */
    ghost predicate Valid()
      reads this
    {
      (leadData.Some? <==> StepIndex(currentStep) >= 1)
      && (surveyData.Some? <==> StepIndex(currentStep) >= 2)
      && (contactData.Some? <==> currentStep == ResultsStep)
      && (resultsData.Some? <==> currentStep == ResultsStep)
      && (resultsData.Some? ==> surveyData.Some? && resultsData.value == Scoring.Assess(surveyData.value))
      && (currentStep != ResultsStep ==> reportsSent == [])
      && |reportsSent| <= 1
      && (forall i :: 0 <= i < |reportsSent| ==> ShouldSend(reportsSent[i]))
    }

    constructor ()
      ensures Valid() && currentStep == LeadStep && reportsSent == []
    {
      currentStep := LeadStep;
      leadData := None;
      surveyData := None;
      contactData := None;
      resultsData := None;
      reportsSent := [];
    }

    /** handleLeadSubmit: stores the lead and moves on to the survey. */
    method HandleLeadSubmit(data: LeadCapture.LeadData)
      requires Valid() && currentStep == LeadStep
      modifies this
      ensures Valid()
      ensures currentStep == SurveyStep && StepIndex(currentStep) == StepIndex(old(currentStep)) + 1
      ensures leadData == Some(data)
      ensures surveyData == old(surveyData) && contactData == old(contactData)
      ensures resultsData == old(resultsData) && reportsSent == old(reportsSent)
    {
      leadData := Some(data);
      currentStep := SurveyStep;
    }

    /** handleSurveyComplete: stores the answers and moves on to the contact form. */
    method HandleSurveyComplete(data: Survey.Answers)
      requires Valid() && currentStep == SurveyStep
      modifies this
      ensures Valid()
      ensures currentStep == ContactStep && StepIndex(currentStep) == StepIndex(old(currentStep)) + 1
      ensures surveyData == Some(data)
      ensures leadData == old(leadData) && contactData == old(contactData)
      ensures resultsData == old(resultsData) && reportsSent == old(reportsSent)
    {
      surveyData := Some(data);
      currentStep := ContactStep;
    }

    /** handleContactSubmit: stores the contact, scores the stored answers, builds the
        payload, sends it unless the guard blocks it, and moves on to the results
        whatever the send's outcome. `outcome` is deliberately ignored: sendEmailReport
        catches a failed send and only logs it (src/App.jsx:429-450), so no outcome
        changes the session. */
    method HandleContactSubmit(data: FinalContact.ContactData, outcome: ResultsView.SendOutcome)
      returns (payload: ReportPayload)
      requires Valid() && currentStep == ContactStep
      modifies this
      ensures Valid()
      ensures currentStep == ResultsStep && StepIndex(currentStep) == StepIndex(old(currentStep)) + 1
      ensures contactData == Some(data) && leadData == old(leadData) && surveyData == old(surveyData)
      ensures resultsData == Some(Scoring.Assess(surveyData.value))
      ensures payload == FullReport(leadData.value, data, resultsData.value, surveyData.value)
      ensures reportsSent == if ShouldSend(payload) then [payload] else []
    {
      contactData := Some(data);
      var survey := surveyData.value;
      var results := Scoring.CalculateResults(survey);
      resultsData := Some(results);
      payload := FullReport(leadData.value, data, results, survey);
      if ShouldSend(payload) {
        reportsSent := reportsSent + [payload];
      }
      currentStep := ResultsStep;
    }
  }

  /** The whole flow with forms that passed their checks: exactly one report goes out,
      addressed to the lead, with the score of the submitted answers, whatever the
      send's `outcome` (which the session ignores). */
  method RunSession(lead: LeadCapture.LeadData, answers: Survey.Answers,
                    contact: FinalContact.ContactData, outcome: ResultsView.SendOutcome)
    returns (app: AppSession)
    requires LeadCapture.LeadErrors(lead) == map[]
    requires FinalContact.ContactErrors(contact) == map[]
    ensures fresh(app) && app.Valid() && app.currentStep == ResultsStep
    ensures app.reportsSent == [FullReport(lead, contact, Scoring.Assess(answers), answers)]
    ensures app.reportsSent[0].organization == lead.companyName
    ensures app.reportsSent[0].userEmail == lead.email
  {
    app := new AppSession();
    app.HandleLeadSubmit(lead);
    app.HandleSurveyComplete(answers);
    var payload := app.HandleContactSubmit(contact, outcome);
    ValidatedFormsAreSent(lead, contact, Scoring.Assess(answers), answers);
  }
}
