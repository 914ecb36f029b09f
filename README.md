# Candidate evaluation form — a Dafny model

This project models the logic of the candidate-evaluation form used by HR
interviewers. An interviewer rates six weighted competencies with star
widgets. The form turns the ratings into a weighted percentage and a fit
label ("Strong Fit", "Good Fit", "Average Fit", "Low Fit", or "Pending All
Scores" until all six are rated). Submitting builds one record from the
candidate fields, the encoded CV, the ratings, the percentage and the label,
and posts it to a spreadsheet endpoint. After a successful submit the
interviewer can send a WhatsApp invite or reset the form. A searchable
dropdown widget filters its options by a case-insensitive substring match.

Modules, one per part of the program:

- `Scoring` (scoring.dfy): the competency table `Metrics`, the weighted
  percentage and `getImpression`. Weights are integer percentages
  10, 25, 20, 10, 15, 20, so the percentage is exactly sum(rating × weight) / 5.
- `Payload` (payload.dfy): the candidate fields, the posted record, and the
  `toFixed(2) + "%"` text of the score.
- `Invite` (invite.dfy): the phone segment of the invite link.
- `EvaluationForm` (evaluation_form.dfy): the class `EvaluationSession`. Its
  fields are the form's React state variables, and its methods are the
  rating setter, the field setters, `handleSubmit`, `handleReset` and
  `handleWhatsAppInvite`.
- `Combobox` (combobox.dfy): the option filter, and the class
  `ComboboxState` holding `isOpen` and `filteredOptions`.
- `RatingInput` (rating_input.dfy): the star buttons, their values and which
  are filled.
- `Wrappers` (wrappers.dfy): `Option`.

Two things the session receives as inputs of `HandleSubmit`:

- the CV encoding, as an opaque text `cvBase64`;
- the network dispatch, as a flag `dispatchSucceeds` ("`fetch` returned
  without throwing").

Three points where the code's behaviour is easy to misread:

- A failed CV read is not handled: the promise around the read settles only
  from `onload` (lines 73-76). See `HandleSubmit` under "## Left out".
- Line 145 puts a '+' in front of a number typed without one, and line 156
  removes the first '+' again, so the link normally carries no '+'. A
  number typed with leading whitespace keeps it (see "## Findings").
- The sidebar legend says "> 50" for Average Fit. The code uses ≥ 55.

## Model

| member | source | states |
|---|---|---|
| `Scoring.Metrics` | app/components/CandidateEvaluationForm.tsx:11-18 | the six criteria in order: ids, titles, hints, and weights 10, 25, 20, 10, 15, 20 as integer percentages |
| `Scoring.MetricWeights` | app/components/CandidateEvaluationForm.tsx:11-18 | six criteria; weights sum to 100%; each weight is a multiple of 5 |
| `Scoring.MetricIdsDistinct` | app/components/CandidateEvaluationForm.tsx:11-18 | the six ids are distinct and are exactly language, communication, business, attitude, professionalism, logic |
| `Scoring.RatingOf` | app/components/CandidateEvaluationForm.tsx:41 | a criterion without a rating counts as 0; a rated one counts its rating |
| `Scoring.WeightedSum` | app/components/CandidateEvaluationForm.tsx:41 | the sum of rating × weight over the criteria: 0 when none is rated, never negative for ratings in [0,5] |
| `Scoring.Percentage` | app/components/CandidateEvaluationForm.tsx:41 | the division by 5 is exact: 5 × percentage equals the weighted sum of ratings |
| `Scoring.WeightedSumDivisible` | app/components/CandidateEvaluationForm.tsx:11-41 | with every weight a multiple of 5, the weighted sum is a multiple of 5 |
| `Scoring.WeightedSumBounds` | app/components/CandidateEvaluationForm.tsx:41 | ratings within [lo, hi] bound the weighted sum by lo and hi times the total weight |
| `Scoring.PercentageRange` | app/components/CandidateEvaluationForm.tsx:41 | with every rating in [0,5] (missing ids count as 0), the percentage lies in [0,100] |
| `Scoring.UniformRatings` | app/components/CandidateEvaluationForm.tsx:41 | all six ratings equal to c give 20·c percent |
| `Scoring.PercentageExamples` | app/components/CandidateEvaluationForm.tsx:41 | the empty score map gives 0, all at 5 give 100, all at 3 give 60 |
| `Scoring.WeightedSumMonotone` | app/components/CandidateEvaluationForm.tsx:41 | ratings that are pointwise no lower never give a lower weighted sum |
| `Scoring.GetImpression` | app/components/CandidateEvaluationForm.tsx:43-49 | "Pending All Scores" exactly when fewer than 6 criteria are scored; the bands are stated by `Scoring.Bands` |
| `Scoring.ImpressionOf` | app/components/CandidateEvaluationForm.tsx:51 | the label of a score map is pending exactly while it has fewer than 6 keys |
| `Scoring.LabelInjective` | app/components/CandidateEvaluationForm.tsx:43-49 | distinct fit labels have distinct texts |
| `Scoring.PendingIffIncomplete` | app/components/CandidateEvaluationForm.tsx:44 | "Pending All Scores" exactly when fewer than 6 keys are present, whatever the percentage |
| `Scoring.Bands` | app/components/CandidateEvaluationForm.tsx:45-48 | with 6 scored: Strong iff p ≥ 85, Good iff 70 ≤ p < 85, Average iff 55 ≤ p < 70, Low iff p < 55 |
| `Scoring.ImpressionMonotone` | app/components/CandidateEvaluationForm.tsx:43-49 | more scored keys or a higher percentage never give a lower label (Pending lowest) |
| `Scoring.RaisingARating` | app/components/CandidateEvaluationForm.tsx:41-51 | setting a criterion to a value no lower than its current rating never lowers the percentage or the label |
| `Scoring.ScoredCountBounded` | app/components/CandidateEvaluationForm.tsx:344-355 | a score map keyed by criterion ids has at most 6 keys, and 6 exactly when every criterion is scored |
| `Scoring.AllScored` | app/components/CandidateEvaluationForm.tsx:59-62 | passing the completeness guard means every criterion has a rating |
| `Scoring.EveryRowScored` | app/components/CandidateEvaluationForm.tsx:59-62 | a rating for every row of the table gives six keys, so the completeness guard passes |
| `Scoring.RatingUpdate` | app/components/CandidateEvaluationForm.tsx:355 | a rating update sets that key, leaves every other rating alone, and grows the key count by at most one, never past 6 |
| `Scoring.MetricIdIn` | app/components/CandidateEvaluationForm.tsx:344 | the id each star row writes is one of the criterion ids |
| `RatingInput.Stars` | app/components/ui/RatingInput.tsx:15-17 | max buttons, and the filled ones always form a prefix |
| `RatingInput.OnClick` | app/components/ui/RatingInput.tsx:16-23 | every click emits a value in [1, max] |
| `RatingInput.ButtonValues` | app/components/ui/RatingInput.tsx:12-16 | exactly max buttons (5 by default), valued 1..max in increasing order; the emitted values are exactly 1..max |
| `RatingInput.ActiveIffAtMostScore` | app/components/ui/RatingInput.tsx:17 | the star valued k is filled iff k ≤ score |
| `RatingInput.ActiveCountIsClampedScore` | app/components/ui/RatingInput.tsx:15-17 | the number of filled stars is the score clamped to [0, max] |
| `RatingInput.ActiveCountEqualsScore` | app/components/ui/RatingInput.tsx:15-17 | for an integer score in [0, max], exactly score stars are filled |
| `Combobox.LowerChar` | app/components/ui/AnimatedCombobox.tsx:45 | never returns an upper-case letter: A-Z move to a-z, every other character is unchanged |
| `Combobox.ToLower` | app/components/ui/AnimatedCombobox.tsx:45 | lower-casing keeps the length and folds each character on its own |
| `Combobox.Includes` | app/components/ui/AnimatedCombobox.tsx:45 | only a text no longer than the string can occur in it; the empty text occurs in every string |
| `Combobox.IncludesIffOccurs` | app/components/ui/AnimatedCombobox.tsx:45 | `includes` holds iff the text occurs at some position |
| `Combobox.Filter` | app/components/ui/AnimatedCombobox.tsx:44-46 | never longer than the options; every kept entry is one of the options and matches the typed text |
| `Combobox.FilterCharacterisation` | app/components/ui/AnimatedCombobox.tsx:44-46 | the filter result is a subsequence of the options; all its entries match; each matching option keeps its multiplicity |
| `Combobox.FilterEmptyQuery` | app/components/ui/AnimatedCombobox.tsx:44-46 | typing the empty string keeps every option |
| `Combobox.FilterIgnoresCase` | app/components/ui/AnimatedCombobox.tsx:44-46 | filtering by the typed text equals filtering by its lower-case form |
| `Combobox.ComboboxState.constructor` | app/components/ui/AnimatedCombobox.tsx:26-27 | initially closed, with every option listed |
| `Combobox.ComboboxState.HandleInputChange` | app/components/ui/AnimatedCombobox.tsx:40-49 | forwards the typed value; the list becomes the filter of the current options, in order; it opens |
| `Combobox.ComboboxState.HandleOptionSelect` | app/components/ui/AnimatedCombobox.tsx:51-54 | forwards the option and closes; the filtered list is untouched |
| `Combobox.ComboboxState.HandleFocus` | app/components/ui/AnimatedCombobox.tsx:77 | focus opens the dropdown |
| `Combobox.ComboboxState.HandleToggle` | app/components/ui/AnimatedCombobox.tsx:84 | the chevron negates isOpen |
| `Combobox.ComboboxState.Dropdown` | app/components/ui/AnimatedCombobox.tsx:92-115 | shown iff open and (some option listed or value non-empty); with none listed it shows the single no-match row |
| `Invite.RemoveWhitespace` | app/components/CandidateEvaluationForm.tsx:145 | the stripped number is never longer than the number typed |
| `Invite.RemoveWhitespaceSpec` | app/components/CandidateEvaluationForm.tsx:145 | stripping `\s` leaves no whitespace, keeps text without whitespace as is, keeps a non-blank first character, and deletes a single character exactly when it is whitespace |
| `Invite.RemoveWhitespaceAppend` | app/components/CandidateEvaluationForm.tsx:145 | stripping works piece by piece: the characters kept from each part appear in order |
| `Invite.FormattedMobile` | app/components/CandidateEvaluationForm.tsx:145 | always begins with '+': the stripped number, with a '+' put in front or not |
| `Invite.RemoveFirstPlus` | app/components/CandidateEvaluationForm.tsx:156 | without a '+' the text is unchanged; with one it is exactly one character shorter; a leading '+' is the one removed |
| `Invite.PhoneSegmentAsWritten` | app/components/CandidateEvaluationForm.tsx:145-156 | the code's segment has no whitespace and is the stripped number with or without one leading '+' |
| `Invite.PhoneSegment` | app/components/CandidateEvaluationForm.tsx:145-156 | the segment has no whitespace and is the stripped number minus one leading '+' if it has one |
| `Invite.AsWrittenCharacterisation` | app/components/CandidateEvaluationForm.tsx:145-156 | the code's segment is the stripped number, minus its first character when the number as typed starts with '+' |
| `Invite.SegmentsAgreeWithoutLeadingWhitespace` | app/components/CandidateEvaluationForm.tsx:145-156 | for a number not starting with whitespace, the code's segment equals `PhoneSegment` |
| `Invite.LeadingSpaceKeepsPlus` | app/components/CandidateEvaluationForm.tsx:145 | " +971 50" gives "+97150" as written, "97150" corrected |
| `Payload.Decimal` | app/components/CandidateEvaluationForm.tsx:92 | decimal notation is non-empty and all digits |
| `Payload.DecimalRoundTrip` | app/components/CandidateEvaluationForm.tsx:92 | reading back a decimal notation gives the number |
| `Payload.WeightedScoreText` | app/components/CandidateEvaluationForm.tsx:92 | the score text ends in ".00%" and starts with '-' exactly for a negative percentage |
| `Payload.WeightedScoreTextRoundTrip` | app/components/CandidateEvaluationForm.tsx:92 | the score text ends in ".00%" and reads back as the percentage |
| `Payload.BuildRecord` | app/components/CandidateEvaluationForm.tsx:79-95 | candidate fields, ratings and comments are copied unchanged; the CV name is never empty; CV text is sent only with a file; the label is pending exactly while fewer than 6 are scored |
| `Payload.RecordNoticePeriod` | app/components/CandidateEvaluationForm.tsx:88 | the custom value is sent when "Other" is selected, the selection otherwise; "Other" is sent only if typed |
| `Payload.RecordCv` | app/components/CandidateEvaluationForm.tsx:70-90 | without a file: empty CV text and "No CV"; with a named file: its encoded text and its name |
| `Payload.RecordScore` | app/components/CandidateEvaluationForm.tsx:91-93 | the ratings are sent as they are; the score text reads back as the percentage; the label text is the current impression's and no other's |
| `Payload.NoticePeriodExample` | app/components/CandidateEvaluationForm.tsx:88 | "Other" with "45 days" typed sends "45 days" |
| `Payload.AllThreesExample` | app/components/CandidateEvaluationForm.tsx:91-93 | all six at 3 send "60.00%" and "Average Fit" |
| `EvaluationForm.ResetOf` | app/components/CandidateEvaluationForm.tsx:118-136 | resetting a state that is not loading gives exactly the mount-time state |
| `EvaluationForm.ResetIdempotent` | app/components/CandidateEvaluationForm.tsx:118-136 | resetting twice equals resetting once |
| `EvaluationForm.EvaluationSession.constructor` | app/components/CandidateEvaluationForm.tsx:21-39 | mount state: no ratings, no file, not loading, empty texts, not submitted, "Business Consultant", "Vipin Kumar", "30 days" |
| `EvaluationForm.EvaluationSession.WeightedScorePercentage` | app/components/CandidateEvaluationForm.tsx:41 | the live percentage is always within [0,100] |
| `EvaluationForm.EvaluationSession.CurrentImpression` | app/components/CandidateEvaluationForm.tsx:44-51 | the label is pending exactly until every criterion is scored |
| `EvaluationForm.EvaluationSession.SetRating` | app/components/CandidateEvaluationForm.tsx:355 | only that criterion's rating changes; keys grow by at most one and never past 6; ratings stay in [1,5] |
| `EvaluationForm.EvaluationSession.SetCandidateInfo` | app/components/CandidateEvaluationForm.tsx:255-301 | the candidate fields become the edited ones |
| `EvaluationForm.EvaluationSession.SetCustomNoticePeriod` | app/components/CandidateEvaluationForm.tsx:317 | the custom notice period becomes the typed text |
| `EvaluationForm.EvaluationSession.SetFile` | app/components/CandidateEvaluationForm.tsx:327 | the file becomes the chosen one or none |
| `EvaluationForm.EvaluationSession.SetComments` | app/components/CandidateEvaluationForm.tsx:373 | the comments become the typed text |
| `EvaluationForm.EvaluationSession.HandleSubmit` | app/components/CandidateEvaluationForm.tsx:53-116 | under 6 scored: nothing sent, submitted unchanged; otherwise the record built from the state is sent and submitted iff the dispatch returned; loading false on every exit |
| `EvaluationForm.EvaluationSession.HandleReset` | app/components/CandidateEvaluationForm.tsx:118-136 | every field but loading back to its mount default; submitted false |
| `EvaluationForm.EvaluationSession.HandleWhatsAppInvite` | app/components/CandidateEvaluationForm.tsx:138-157 | refused iff name or mobile is empty; otherwise opens the link for the whitespace-free phone segment, which is the code's own segment whenever the number does not begin with whitespace |
| `EvaluationForm.FiveOfSixIsRejected` | app/components/CandidateEvaluationForm.tsx:59-66 | five of six criteria scored: the submit is refused |
| `EvaluationForm.SubmitThenReset` | app/components/CandidateEvaluationForm.tsx:53-136 | rating all six criteria and a dispatch that returns save the record; a reset then yields the mount-time state |

## Left out

- Floating point: the source sums the weights 0.10, 0.25, … in doubles, and formats with `toFixed`. The model uses exact integer percentages. In doubles the sum can fall just below an exact band boundary; ratings 1, 2, 4, 2, 5, 2 in table order are exactly 55 in the model.
- `toFixed(1)` on the success screen and the sidebar is display only.
- CV encoding: `FileReader.readAsDataURL` is browser work. The model takes the Base64 part that `split(',')[1]` keeps (line 74) as the input `cvBase64`.
- EvaluationForm.EvaluationSession.HandleSubmit: assumes the CV read completes. When `readAsDataURL` fails, `onload` never fires (lines 73-76), so the promise never settles. `handleSubmit` then never reaches its `finally` (line 113), and `loading` stays true for the rest of the session, with the submit button disabled (line 381). The `ensures !loading` holds only because that path is left out.
- Network dispatch: `fetch` in `no-cors` mode and the endpoint from `process.env` are not modelled. Its outcome is the input `dispatchSucceeds`.
- Browser effects: `alert`, `console`, `window.scrollTo` and `window.open` are not modelled. Nor is the combobox's click-outside `mousedown` listener, which closes the dropdown.
- EvaluationForm.EvaluationSession.HandleWhatsAppInvite: opens the corrected `Invite.PhoneSegment`. That differs from the code's link (lines 145 and 156) only when the number is typed with leading whitespace: " +971 50" gives "97150" here and "+97150" in the code. Its contract states that it equals the code's `Invite.PhoneSegmentAsWritten` in every other case.
- Invite message: the message template and `encodeURIComponent` are not modelled. Only the phone segment of the link is.
- EvaluationForm.EvaluationSession.HandleSubmit: requires `!loading`. The disabled submit button is the only guard against a second submit. It also requires `!submitted`, because the form is not shown on the success screen. The `loading = true` of the await period is not observable between calls.
- EvaluationForm.EvaluationSession.HandleSubmit: states completeness as "six keys present", as the code tests it. `Scoring.AllScored` turns that into "every criterion scored".
- Browser form validation: the `required` attributes stop the browser from submitting with empty fields. That check is not modelled; `HandleSubmit` accepts any field contents.
- Case folding is ASCII only. Unicode `toLowerCase` is not modelled.
- The combobox's `options` and `value` are parent props. They are parameters here. `filteredOptions` is seeded from the options at mount only, as `useState(options)` does.
- Presentation: JSX layout, animation and styling are not modelled. GlassCard.tsx, AnimatedInput.tsx and AnimatedSelect.tsx are not part of this model.
- The sidebar legend text (line 435-438) is not modelled.

## Findings

| source | as written | input that shows it | evidently intended | confidence | as-written member | corrected member |
|---|---|---|---|---|---|---|
| app/components/CandidateEvaluationForm.tsx:145-156 | the leading '+' is tested on the mobile number as typed, before whitespace is stripped, and then only the first '+' is removed | mobile " +971 50" gives the link segment "+97150" | strip whitespace, then drop a leading '+': "97150" | medium; not executed | `Invite.PhoneSegmentAsWritten`, shown by `Invite.LeadingSpaceKeepsPlus` | `Invite.PhoneSegment`, proved by `Invite.SegmentsAgreeWithoutLeadingWhitespace` and its own contract; used by `HandleWhatsAppInvite` |
