# AI and cybersecurity readiness assessment — a Dafny model

The application is a four-step web assessment:

1. A lead form takes a company name and an e-mail address.
2. A survey of 6 sections × 4 questions records one answer of 0..4 per question.
3. A final contact form takes first name, last name, company size, phone and consent to receive the report.
4. A results page shows the score.

The results include:

- the total and the percentage;
- a readiness level from 1 to 4 with its name, risk category and description;
- a bar per section;
- dynamically chosen recommendations, and insight cards;
- the option to resend the report by e-mail.

When the contact form is submitted, the session scores the answers and builds a report payload from all three inputs. It sends the payload unless a required contact field is empty.

This project models that core, one module per concern:

| module | file | flavour |
|---|---|---|
| `Js` | js.dfy | the JavaScript built-ins the code relies on: `trim` and `\s`, `Math.round` of a percentage in integers, `Set` de-duplication, `slice`, and a rule list filtered in order (`Select`) that stands for a run of conditional `push`es |
| `Survey` | survey.dfy | the answer store (pure), and the `SurveyScreen` class with its current section, answer, Next and Previous handlers |
| `Scoring` | scoring.dfy | `calculateResults` as a method with loops, proved equal to the specification `Assess`, plus the level bands |
| `Recommendations` | recommendations.dfy | `generateDynamicRecommendations` as a method with a loop over the six sections, proved equal to the rule-list specification `Recommend` |
| `ReportInsights` | report_insights.dfy | `generatePDFInsights` as a method of pushes, proved equal to `Insights` |
| `BusinessInsights` | business_insights.dfy | `getBusinessInsights` as a method of pushes, proved equal to `BusinessInsights` |
| `ResultsView` | results_view.dfy | the section bar's percentage and colour, the numbered recommendations, the resend e-mail data, and the e-mail status dialog (a pure step function plus the `EmailStatusPanel` class) |
| `LeadCapture` | lead_capture.dfy | the e-mail pattern, the submit checks, and the `LeadCaptureForm` class |
| `FinalContact` | final_contact.dfy | the submit checks and the `FinalContactForm` class |
| `Session` | session.dfy | the `AppSession` class (step machine and report sending), the merged payload, and the send guard |

Conventions:

- Section and question keys `section_k` / `question_q` are the natural numbers k and q.
- A score map `map<nat, int>` keeps a missing section distinct from a score of 0.
- JavaScript comparisons with `undefined` are false, so every rule on a section reads "the section is present and …".
- Percentages are integers:
  - `Math.round(100 * t / m)` is `(200 * t + m) / (2 * m)`;
  - `s / 16 * 100 < 50` is `s < 8`, and `>= 75` is `s >= 12`.
- The recommendation and insight texts are the source's strings verbatim, including "Advanced your data infrastructure …".

Three behaviours of the code worth knowing:

- A resend from the results page carries no survey answers. It reads `data.surveyData`, and the results object has no such field.
- The report's `user_email` is always the lead's address, because the contact form has no e-mail field.
- The "Resend Report Email" link only sets the status to 'sending'. It issues no send and leaves a dialog without buttons (`ResultsView.ResendLinkStrands`).

## Model

| member | source | states |
|---|---|---|
| `Js.TrimEmptyIffBlank` | src/components/LeadCapture.jsx:29 | `!s.trim()` holds exactly when every character of s is white space (including the empty string) |
| `Js.TrimmedIsEmpty` | src/components/FinalContact.jsx:31 | the forms' `!value.trim()` computes true iff the value is all white space |
| `Js.RoundedPercent` | src/App.jsx:76 | the integer rounding lies within half a unit of 100·score/max, so it is `Math.round` of the exact quotient, halves up |
| `Js.RoundedPercentMonotone` | src/App.jsx:76 | rounding the percentage is monotone in the score |
| `Survey.WithAnswer` | src/components/Survey.jsx:296-304 | the stored answer of (s, q) becomes v; every other (section, question) entry is unchanged; the section keys gain only s |
| `Survey.WithAnswerOverwrites` | src/components/Survey.jsx:296-304 | repeating the same answer is idempotent, and a later value overwrites an earlier one |
| `Survey.WithAnswerKeepsAnswers` | src/components/Survey.jsx:296-304 | recording an answer never removes another one |
| `Survey.SectionComplete` | src/components/Survey.jsx:306-313 | a section is complete iff its map exists and questions 0..3 are all answered |
| `Survey.OptionValuesInRange` | src/components/Survey.jsx:20-24 | every recordable option value lies in 0..4 |
| `Survey.CompleteAnswersShape` | src/components/Survey.jsx:12-289 | completed answers have exactly the sections 0..5, each with exactly the questions 0..3 |
| `Survey.CompleteAnswersCount` | src/components/Survey.jsx:12-289 | completed answers have 6 sections of 4 answers each |
| `Survey.SurveyScreen.constructor` | src/components/Survey.jsx:9-10 | the screen starts on section 0 with no answers |
| `Survey.SurveyScreen.HandleAnswerChange` | src/components/Survey.jsx:296-304 | the store becomes `WithAnswer` of the old store, and the section does not move; the invariant holds (section in 0..5, values are options, earlier sections complete) |
| `Survey.SurveyScreen.PressNext` | src/components/Survey.jsx:315-321 | disabled while the section is incomplete; otherwise it advances one section, or on section 5 hands over the answers without moving; whatever it hands over is complete and well formed |
| `Survey.SurveyScreen.PressPrevious` | src/components/Survey.jsx:323-327 | it moves back exactly when the section is above 0, and the answers are unchanged |
| `Scoring.SumValuesUpdate` | src/App.jsx:69-74 | changing one entry changes the sum by exactly the difference |
| `Scoring.SumValuesBounds` | src/App.jsx:69-74 | entries in [lo, hi] give a sum in [lo·n, hi·n] |
| `Scoring.Classify` | src/App.jsx:82-102 | the level is always 1..4 |
| `Scoring.ClassifyBands` | src/App.jsx:82-102 | level 1 iff p ≤ 24, level 2 iff 25..49, level 3 iff 50..74, level 4 iff p ≥ 75, each with its name, risk category and description |
| `Scoring.ClassifyMonotone` | src/App.jsx:82-102 | a higher percentage never gives a lower level |
| `Scoring.SectionTotal` | src/App.jsx:71 | the loop's total is the sum of the section's answers |
| `Scoring.CalculateResults` | src/App.jsx:63-117 | the loop over the sections yields exactly `Assess(survey)` |
| `Scoring.AssessFields` | src/App.jsx:63-117 | there is a score for exactly the present sections, each their sum; the total is their sum; the maximum is 96; the percentage is the rounded 100·total/96; the level is that of the percentage; the key risks are the first min(3, n) recommendations |
| `Scoring.SectionScoreBounds` | src/App.jsx:71 | a section the screen can produce scores 0..16 |
| `Scoring.AssessBounds` | src/App.jsx:63-117 | for producible answers: sections 0..16, total 0..96, percentage 0..100, level 1..4 |
| `Scoring.RaisingAnAnswer` | src/App.jsx:69-76 | raising one answer never lowers the total or the percentage |
| `Scoring.UniformAnswers` | src/App.jsx:69-74 | all 24 answers equal to v give 4v per section and 24v in total |
| `Scoring.FullMarks` | src/App.jsx:63-117 | all answers 4 give 96 points, 100 %, level 4 "Leading", and the roadmap recommendation |
| `Scoring.NoPoints` | src/App.jsx:63-117 | all answers 0 give 0 points, 0 %, level 1, risk "High", and the foundational recommendation first |
| `Recommendations.ThresholdsInPoints` | src/App.jsx:124-176 | a section percentage below 50 is a score below 8, and one of at least 75 is a score of at least 12 |
| `Recommendations.GenerateDynamicRecommendations` | src/App.jsx:119-187 | the pushes, unshift, de-duplication and slice give exactly `Recommend`, without duplicates and at most 7 long |
| `Recommendations.RecommendMembership` | src/App.jsx:124-183 | section k's gap text appears iff it is present and below 8; its strength text iff present and at least 12; the foundational text iff overall < 30; the roadmap text iff overall > 70 |
| `Recommendations.RecommendShape` | src/App.jsx:119-187 | the list keeps the order foundational, sections 0..5, roadmap, has no duplicates, and has at most 7 entries |
| `Recommendations.RecommendEnds` | src/App.jsx:179-183 | the foundational text comes first iff overall < 30; above 70 the roadmap text comes last |
| `Recommendations.AllStrong` | src/App.jsx:124-183 | with every section at ≥ 12 and overall > 70, the list is the six strength texts and then the roadmap |
| `Recommendations.KeyRisks` | src/App.jsx:114 | the key risks are the prefix of length min(3, n) |
| `ReportInsights.GeneratePDFInsights` | src/App.jsx:377-409 | the pushes and the slice give exactly `Insights` |
| `ReportInsights.MissingScores` | src/App.jsx:380-382 | missing section scores give exactly the one fallback text |
| `ReportInsights.CapDropsNothing` | src/App.jsx:386-408 | at most four rules can fire, so the cap of 4 never drops an insight |
| `ReportInsights.InsightMembership` | src/App.jsx:386-406 | leadership gap iff section 0 < 8; leadership strength iff section 0 ≥ 12; data gap iff section 1 < 8; security gap iff section 2 < 8; opportunity iff overall < 30; advanced position iff overall > 70; never the fallback |
| `ReportInsights.InsightOrder` | src/App.jsx:386-406 | insights appear in rule order |
| `BusinessInsights.GetBusinessInsights` | src/components/Results.jsx:224-266 | the pushes and the slice give exactly `BusinessInsights` |
| `BusinessInsights.MissingScores` | src/components/Results.jsx:227 | no section scores give no cards |
| `BusinessInsights.HighSelect` | src/components/Results.jsx:228-254 | the three high-priority cards appear in order, each iff its section is below 8 |
| `BusinessInsights.HighMembership` | src/components/Results.jsx:228-254 | a high-priority card is present iff its section is below 8, and the workforce card is never among them |
| `BusinessInsights.InsightMembership` | src/components/Results.jsx:224-266 | leadership, data and security cards appear iff their section is below 8; the workforce card iff section 4 is below 8 and not all three others fired; at most 3 cards |
| `BusinessInsights.InsightOrder` | src/components/Results.jsx:224-266 | the cards come in the order leadership, data, security, workforce, each only if its section is below 8, cut to the first three |
| `BusinessInsights.InsightPriorities` | src/components/Results.jsx:224-263 | every card is high priority except the workforce card, which is medium |
| `ResultsView.DisplayedScore` | src/components/Results.jsx:541-566 | a bar shows the section's score, or 0 for a missing section |
| `ResultsView.BarPercent` | src/components/Results.jsx:93 | the bar's percentage is the nearest integer to 100·score/16, halves up; a score of 0..16 is drawn as 0..100 %, with 0 and 16 at the ends |
| `ResultsView.StatusColour` | src/components/Results.jsx:94-98 | red exactly below 50 %, yellow exactly from 50 below 75, green exactly from 75 |
| `ResultsView.BarColourInPoints` | src/components/Results.jsx:93-98 | red iff the score is below 8, yellow iff 8..11, green iff at least 12 |
| `ResultsView.MissingSectionBar` | src/components/Results.jsx:541-566 | a missing section shows an empty red bar |
| `ResultsView.ShownRecommendations` | src/components/Results.jsx:629-638 | at most the first 6 recommendations are shown, numbered 1..n in list order |
| `ResultsView.RoadmapHiddenWhenAllStrong` | src/components/Results.jsx:629 | with all sections strong, the seventh entry (the roadmap) is not shown |
| `ResultsView.EmailDataOf` | src/components/Results.jsx:141-158 | field by field: organization, address, names, phone and company size from the contact details; score, maximum, percentage, risk category, recommendations, level, level name, description and section scores from the results; never any survey answers |
| `ResultsView.Enabled` | src/components/Results.jsx:418-489 | the link in every status and Test Send whenever nothing is pending, since the overlay traps no keyboard focus; no dialog button when 'idle' or 'sending'; Close only on 'success'; Try Again and Cancel only on 'failure'; a settle only while a send is pending |
| `ResultsView.Step` | src/components/Results.jsx:135-179 | every step keeps "a pending send exists only while 'sending'"; Test Send and Try Again lead to 'sending' with a send pending; a settled send leaves nothing pending and shows 'success' or 'failure' |
| `ResultsView.OnlyTheLinkStrands` | src/components/Results.jsx:425-489 | except the 'sending' dialog with nothing pending, every dialog in a state keeping the invariant offers a way on: Close on success, Try Again on failure, a settle while sending |
| `ResultsView.SettleOutcome` | src/components/Results.jsx:166-179 | a settled send shows 'success' iff the user e-mail was sent, and 'failure' on a false flag or an exception |
| `ResultsView.DismissReturnsToIdle` | src/components/Results.jsx:454-483 | Close and Cancel return to 'idle' |
| `ResultsView.ResendLinkStrands` | src/components/Results.jsx:686-692 | from any state with nothing pending (idle, success, failure) the link issues no send and reaches 'sending' with nothing pending, where no dialog button and no settle is possible, only the covered page controls by keyboard |
| `ResultsView.EmailStatusPanel.constructor` | src/components/Results.jsx:23-24 | the page is mounted with its contact details and results, in 'idle', with nothing pending or sent |
| `ResultsView.EmailStatusPanel.HandleResendEmail` | src/components/Results.jsx:135-158 | sets 'sending' and issues exactly one send, of the e-mail data built from the page's own contact details and results (`EmailDataOf`) |
| `ResultsView.EmailStatusPanel.SettleSend` | src/components/Results.jsx:164-179 | the awaited send settles as `Step` says, with no further send |
| `ResultsView.EmailStatusPanel.Dismiss` | src/components/Results.jsx:454 | Close or Cancel: back to 'idle' |
| `ResultsView.EmailStatusPanel.ClickResendLink` | src/components/Results.jsx:686-692 | in any status, the link's only effect is 'sending'; a pending send stays pending |
| `LeadCapture.IndexOf` | src/components/LeadCapture.jsx:15-23 | a helper of the regular-expression model (`EmailShape`), not an operation of those lines: the first index of a character, or -1 exactly when it is absent |
| `LeadCapture.EmailShapeIffPattern` | src/components/LeadCapture.jsx:15-23 | the direct check (no white space, exactly one '@' with something before it, an inner '.' after it) accepts exactly the strings the regular expression matches |
| `LeadCapture.ValidateEmail` | src/components/LeadCapture.jsx:15-23 | null iff the address matches the pattern, otherwise the invalid-address message |
| `LeadCapture.PaddedEmailRejected` | src/components/LeadCapture.jsx:15-36 | `validateEmail`, as a function, rejects an address with a white-space character before or after it, since it tests the untrimmed value; through the `type="email"` input no padding reaches it (ASCII padding is stripped, other white space blocks the submit) |
| `LeadCapture.LeadErrors` | src/components/LeadCapture.jsx:25-41 | every stored message is one of the three texts, so a field has an entry exactly when its message is set |
| `LeadCapture.LeadErrorsSpec` | src/components/LeadCapture.jsx:25-41 | company error iff the name is blank; e-mail error iff blank or not matching, with "required" taking precedence; accepted iff neither |
| `LeadCapture.AcceptedLeadNonEmpty` | src/components/LeadCapture.jsx:25-47 | an accepted lead has a non-empty company name and e-mail address |
| `LeadCapture.ChangeIsLocal` | src/components/LeadCapture.jsx:49-62 | a change writes only the named field and clears only that field's message |
| `LeadCapture.LeadCaptureForm.constructor` | src/components/LeadCapture.jsx:9-13 | the form starts with both fields empty and no messages |
| `LeadCapture.LeadCaptureForm.HandleSubmit` | src/components/LeadCapture.jsx:25-47 | stores `LeadErrors` of the form data, and submits the unchanged data iff there are none |
| `LeadCapture.LeadCaptureForm.HandleChange` | src/components/LeadCapture.jsx:49-62 | sets the field and clears its message, as `ChangeIsLocal` describes |
| `FinalContact.ContactErrors` | src/components/FinalContact.jsx:27-43 | the phone never gets a message, and every stored message is set |
| `FinalContact.ContactErrorsPointwise` | src/components/FinalContact.jsx:27-43 | a field has a message iff its own check fails, and the message is that field's own |
| `FinalContact.ContactErrorsSpec` | src/components/FinalContact.jsx:27-48 | name errors iff blank; company-size error iff empty; consent error iff unchecked; never a phone error; accepted iff all four checks pass |
| `FinalContact.PhoneIgnored` | src/components/FinalContact.jsx:27-48 | the phone value never affects the errors |
| `FinalContact.AcceptedContactNonEmpty` | src/components/FinalContact.jsx:44-47 | an accepted contact has non-empty first and last names |
| `FinalContact.ApplyInput` | src/components/FinalContact.jsx:50-55 | a checkbox stores `checked` in the consent field, any other input stores `value` in the field it names; no other field changes |
| `FinalContact.ChangeIsLocal` | src/components/FinalContact.jsx:56-58 | only the changed field's message is cleared; every other message is kept |
| `FinalContact.FinalContactForm.constructor` | src/components/FinalContact.jsx:9-16 | the form starts with empty fields, consent unchecked and no messages |
| `FinalContact.FinalContactForm.HandleSubmit` | src/components/FinalContact.jsx:27-48 | stores `ContactErrors` of the form data, and submits the untrimmed data iff there are none |
| `FinalContact.FinalContactForm.HandleChange` | src/components/FinalContact.jsx:50-59 | applies the input to the form data and clears the named field's message |
| `Session.OrElse` | src/App.jsx:45 | the JavaScript or-operator on two strings gives the first unless it is empty, then the second |
| `Session.FullReport` | src/App.jsx:39-48 | the report's organization is the lead's company and it goes to the lead's address; names, size, phone and consent come from the contact form, with the score and the answers |
| `Session.ShouldSend` | src/App.jsx:419-427 | the guard lets a report through exactly when organization, address, first and last name are all non-empty |
| `Session.GuardInTermsOfForms` | src/App.jsx:39-48 | the payload's organization is the lead's company and it goes to the lead's address; the guard blocks iff the company, the lead e-mail or a contact name is empty |
| `Session.ValidatedFormsAreSent` | src/App.jsx:419-427 | data accepted by both forms always passes the guard |
| `Session.GuardWeakerThanForm` | src/App.jsx:419-427 | the guard only tests non-emptiness: any non-empty, white-space-only first name passes it, though the contact form rejects it |
| `Session.MergeContact` | src/App.jsx:475 | the results page's contact details: company and e-mail from the lead form; names, phone and company size from the contact form |
| `Session.ResendMatchesReport` | src/App.jsx:475 | the results page's resend agrees with the submitted report on organization, address, names, score and recommendations, but drops the answers |
| `Session.AppSession.constructor` | src/App.jsx:11-15 | the session starts at the lead step with nothing stored or sent |
| `Session.AppSession.HandleLeadSubmit` | src/App.jsx:24-27 | stores the lead and moves from lead to survey |
| `Session.AppSession.HandleSurveyComplete` | src/App.jsx:29-32 | stores the answers and moves from survey to contact |
| `Session.AppSession.HandleContactSubmit` | src/App.jsx:34-61 | stores the contact and the score of the stored answers; sends the merged payload iff the guard passes; moves to results whatever the send's outcome; with the handler taken as one atomic step, at most one report per session |
| `Session.RunSession` | src/App.jsx:24-61 | the normal flow with accepted forms sends exactly one report, addressed to the lead, with the score of the answers |

## Left out

- PDF layout (`generatePDFReport`): a fixed sequence of drawing calls into a dynamically imported library. Only its insight list is modelled.
- The e-mail service client and the serverless send function are not modelled. A send is an input, its outcome a `SendOutcome`, and the session records the payloads it hands over.
- Rendering, animations, the progress ring geometry, `window.scrollTo`, icons, console output, and the debug panel's log entries with wall-clock timestamps.
- The debug panel's configuration test (`handleTestEmail`) is not modelled; only its Test Send button, which calls `handleResendEmail`, is.
- Async ordering: each handler is one atomic step. Two races are not modelled:
  - repeated resend clicks while a send is pending, including Test Send pressed by keyboard under the 'sending' dialog (one pending flag cannot hold two sends, so `Enabled` admits Test Send only with nothing pending);
  - a second contact-form submit while the first awaits `sendEmailReport`. The contact form stays mounted until that returns (src/App.jsx:34-61, 465-468), and its submit button is never disabled (src/components/FinalContact.jsx:181-188), so the real code can send the report twice. "At most one report per session" holds only in the atomic model.
- The survey's floating-point progress percentage.
- `parseInt` on stored answers: the model stores integers, which is all the option buttons can record.
- The contact data passed to `calculateResults` is ignored by that function, and the model leaves it out.
- The browser's handling of the lead form's `type="email"` input (src/components/LeadCapture.jsx:121) is not modelled; only the components' own checks are. That input does two things:
  - It blocks submission of an address that HTML's own e-mail grammar rejects. The form (src/components/LeadCapture.jsx:85) has no `noValidate`, so `handleSubmit` never runs for such an address.
  - It strips newlines and leading and trailing ASCII white space from the value before `validateEmail` sees it.

  Together these mean no padded address reaches `validateEmail` through the input. ASCII padding is stripped. Any other white space, such as U+00A0 or U+000B, lies outside the grammar's ASCII-only characters, so the submit is blocked. `LeadCapture.PaddedEmailRejected` is therefore a fact about `validateEmail` as a function (src/components/LeadCapture.jsx:16, 36).
- The initial `{}` objects of the session are absent values in `AppSession`: each form's data exists from the step after its own.
- The company-size options are not modelled: the check only distinguishes the empty placeholder from any other value.
- The iteration order of `Object.entries` in `calculateResults` is not modelled: the loop picks keys in any order, and the sums do not depend on it.
