# Cat-safety questionnaire: scoring, wizard and translation lookup

This project models the logic core of a client-side intake questionnaire for a
cat-safety window-netting business, and proves properties of that model in
Dafny. The model covers four parts:

- A three-step wizard (basic information, six scored questions,
  confirmation). It owns a mutable draft record.
- The score, which is the sum of the six answers, and the tier posted with a
  submission (cut points 6 and 13).
- The result view's own tier, with cut points 4 and 10. It also covers the
  highlighted rows of the score breakdown and the score banner.
- The display-language context: the active language and a key lookup that
  falls back to the key itself.

Files and modules:

- `js_string.dfy`, module `JsString`: ECMAScript's `String.prototype.trim`, which the first-step guard uses.
- `intake.dfy`, module `Intake`: `src/components/AssessmentForm.tsx`. The
  draft record, `updateFormData` as a pure function `With`, the option values,
  `calculateTotalScore`, both step guards, the submission tier and the
  payload. The component's state is the class `AssessmentForm`, with fields
  `step`, `formData`, `isSubmitted` and `isSubmitting` and one method per
  handler.
- `report.dfy`, module `Report`: `src/components/AssessmentResult.tsx`. The
  report's `getRiskLevel`, the score breakdown's `>= 2` flags and the score
  banner.
- `locale.dfy`, module `Locale`: `src/contexts/LanguageContext.tsx`. The
  `Language` type, the tables as an abstract `map<Language, map<string,
  string>>` with a small sample, the lookup `t`, and the class
  `LanguageProvider`, whose `language` field `SetLanguage` replaces.

Inputs the program gets from outside become parameters:

- the webhook post becomes `posted: bool`, meaning the post did not throw;
- the locale-formatted clock reading becomes `timestamp: string`.

Two points about the submission flow:

- A failed post does not set `isSubmitted`: `setIsSubmitted(true)` runs only
  after the awaited post returns without throwing
  (`AssessmentForm.tsx:200-228`), so the result view is not shown.
  `EndSubmit` models this.
- The two tier classifiers really differ: 6/13 for the submission and 4/10 in
  the report. Both are modelled separately. `ClassifiersAgreeExceptBetweenCuts`
  proves that they rank a total the same way exactly outside 5..6 and
  11..13. Inside those ranges the customer is shown a higher level than the
  one posted.

`Consistent` (on the class) states what the wizard's own inputs maintain:

- every answer is `-1` or one of its question's option values;
- a step past the first was entered through the first guard;
- the confirmation step was entered through the second guard.

The constructor and `HandleReset` establish it, and `HandleNext` and
`HandleBack` preserve it. `UpdateFormData` preserves it only when the update is one the current step's
inputs can make. At the confirmation step it implies that the payload is
finalized (`Finalized`): no `-1` remains, and the total lies in 1..19.

## Model

| member | source | states |
|---|---|---|
| `JsString.TrimStartSpec` | src/components/AssessmentForm.tsx:123-131 | stripping leading white space returns a suffix, drops only white space, and leaves no leading white space |
| `JsString.TrimEndSpec` | src/components/AssessmentForm.tsx:123-131 | stripping trailing white space returns a prefix, drops only white space, and leaves no trailing white space |
| `JsString.TrimIsInnerSlice` | src/components/AssessmentForm.tsx:123-131 | `trim` returns the slice between the first and the last non-white-space character, and what it drops is blank |
| `JsString.TrimEmptyIffBlank` | src/components/AssessmentForm.tsx:123-131 | `s.trim() !== ""` holds exactly when s has a non-white-space character |
| `JsString.TrimOfUnpadded` | src/components/AssessmentForm.tsx:123-131 | a string with no leading or trailing white space is its own trim |
| `JsString.TrimIdempotent` | src/components/AssessmentForm.tsx:123-131 | trimming twice equals trimming once |
| `Intake.With` | src/components/AssessmentForm.tsx:115-117 | the updated draft holds the new value in the named field, and every other field is unchanged |
| `Intake.FieldsDetermineDraft` | src/components/AssessmentForm.tsx:12-25 | two drafts with equal values in all twelve fields are equal |
| `Intake.UpdatesCommute` | src/components/AssessmentForm.tsx:115-117 | updates of two different fields give the same draft in either order |
| `Intake.UpdateWithSameValue` | src/components/AssessmentForm.tsx:115-117 | writing back a field's current value leaves the draft unchanged |
| `Intake.OptionValues` | src/components/AssessmentForm.tsx:42-103 | every question offers four options in strictly increasing order, and a value is in the list exactly when it passes `IsOption` (1..4 for the cat count, 0..3 for the other five) |
| `Intake.MaxOption` | src/components/AssessmentForm.tsx:42-103 | the value returned is an option of the question and no option is larger |
| `Intake.TotalScoreAfterUpdate` | src/components/AssessmentForm.tsx:115-121 | changing one answer changes the total by exactly the difference, and changing a text field leaves the total unchanged |
| `Intake.AnsweredTotalRange` | src/components/AssessmentForm.tsx:42-121 | with every answer taken from its options, the total lies in 1..19 |
| `Intake.AnsweredTotalsBounded` | src/components/AssessmentForm.tsx:42-121 | every draft answered from the options has a total between 1 and the largest total the options allow |
| `Intake.TotalRangeTight` | src/components/AssessmentForm.tsx:42-121 | both 1 and 19 are reached by fully answered drafts |
| `Intake.Step1ValidIff` | src/components/AssessmentForm.tsx:123-131 | the first guard holds exactly when address, building type, floor, window count and cat weight are each not blank; the door count has no effect |
| `Intake.Step2ValidIffAnswered` | src/components/AssessmentForm.tsx:133-142 | when each answer is `-1` or an option value, the second guard holds exactly when all six questions are answered |
| `Intake.Step2Rejects` | src/components/AssessmentForm.tsx:34-142 | the second guard rejects the initial draft and a fully answered draft whose cat count is 0, and accepts every fully answered draft |
| `Intake.SubmitRiskLevel` | src/components/AssessmentForm.tsx:176-180 | tier 1 exactly when the score is at most 6, tier 2 exactly when it is in 7..13, and tier 3 exactly when it is above 13 |
| `Intake.SubmitRiskMonotone` | src/components/AssessmentForm.tsx:176-180 | a larger score never yields a lower submission tier |
| `Intake.TierLabelInjective` | src/components/AssessmentForm.tsx:176-180 | the three tiers are posted under three different labels |
| `Intake.BuildPayload` | src/components/AssessmentForm.tsx:182-198 | the door count is "0" when empty and copied otherwise, so it is never empty; the total is the draft's score and the sum of the posted answers; the risk level is the label of the total's tier; every other field is copied |
| `Intake.PayloadOfValidDraft` | src/components/AssessmentForm.tsx:133-198 | a draft that passed both guards gives a payload with no `-1`, every answer an option value, a total in 1..19 and a non-blank address |
| `Intake.SubmitExamples` | src/components/AssessmentForm.tsx:119-180 | answers 2,1,0,2,0,1 total 6, which is tier 1; raising the cat count to 4 gives 8, which is tier 2 |
| `Intake.AdmissibleUpdateKeepsConsistent` | src/components/AssessmentForm.tsx:274-430 | an update that the current step's inputs can make keeps the draft consistent with the step |
| `Intake.AnswerUpdateKeepsConsistent` | src/components/AssessmentForm.tsx:390-415 | choosing an option at the question step keeps the wizard consistent |
| `Intake.AssessmentForm.constructor` | src/components/AssessmentForm.tsx:106-109 | the wizard starts at step 0 with the initial draft, not submitted and not submitting |
| `Intake.AssessmentForm.UpdateFormData` | src/components/AssessmentForm.tsx:115-117 | the draft becomes `With(old draft, field, value)`; only the draft may change |
| `Intake.AssessmentForm.HandleNext` | src/components/AssessmentForm.tsx:144-164 | at step 0 with an invalid first step, or at step 1 with an invalid second step, it raises the matching notice and stays; otherwise it moves forward but never past step 2; the draft is never changed |
| `Intake.AssessmentForm.HandleBack` | src/components/AssessmentForm.tsx:166-170 | it decrements a step above 0, does nothing at 0, and keeps the draft |
| `Intake.AssessmentForm.BeginSubmit` | src/components/AssessmentForm.tsx:172-198 | sets `isSubmitting` and returns the payload of the current draft; at the confirmation step of a consistent wizard the payload is finalized |
| `Intake.AssessmentForm.EndSubmit` | src/components/AssessmentForm.tsx:200-228 | `isSubmitted` becomes true only when the post succeeded and is unchanged otherwise; `isSubmitting` is false afterwards; the notice tells success from failure |
| `Intake.AssessmentForm.HandleSubmit` | src/components/AssessmentForm.tsx:172-229 | the payload is built from the draft; after a successful post the form is submitted, after a failed one it keeps its previous state; `isSubmitting` is false afterwards either way; the draft and step are untouched |
| `Intake.AssessmentForm.HandleReset` | src/components/AssessmentForm.tsx:231-235 | restores the initial draft, sets the step to 0 and clears `isSubmitted` |
| `Intake.FillBasics` | src/components/AssessmentForm.tsx:274-376 | typing any basic information that passes the first guard and pressing next reaches step 1 with a consistent draft |
| `Intake.AnswerExample` | src/components/AssessmentForm.tsx:379-430 | answering 2,1,0,2,0,1 at step 1 and pressing next reaches the confirmation step |
| `Intake.ExampleSession` | src/components/AssessmentForm.tsx:144-245 | a whole session posts a total of 6 with the tier 1 label and the address typed; an empty door count is posted as "0"; the report is shown exactly when the post succeeded |
| `Report.ViewOf` | src/components/AssessmentResult.tsx:35-70 | each level's view carries that level |
| `Report.GetRiskLevel` | src/components/AssessmentResult.tsx:35-70 | "low" exactly when the total is at most 4, "medium" exactly when it is in 5..10, "high" exactly when it is above 10, with that level's label, colours and icon |
| `Report.RiskLevelMonotone` | src/components/AssessmentResult.tsx:35-70 | a larger total never yields a lower level |
| `Report.ViewsDistinct` | src/components/AssessmentResult.tsx:35-70 | different levels show different labels, colours and icons |
| `Report.ClassifiersAgreeExceptBetweenCuts` | src/components/AssessmentResult.tsx:35-70 | the report's level and the submitted tier agree in rank exactly outside 5..6 and 11..13, and the report's is never the lower one |
| `Report.ScoreRows` | src/components/AssessmentResult.tsx:198-233 | the breakdown has one row each for q5..q9 in order, holding the stored answer; a row is flagged exactly when its answer is at least 2 |
| `Report.FlagsIndependentOfTier` | src/components/AssessmentResult.tsx:198-233 | drafts that agree on q5..q9 show the same breakdown, whatever their totals and levels |
| `Report.FlagsAndLevelsExamples` | src/components/AssessmentResult.tsx:35-233 | a low-level report can show a flagged row, and a medium-level report can show none |
| `Report.HighLevelHasFlaggedRow` | src/components/AssessmentResult.tsx:35-233 | with answers taken from the options, every high-level report has at least one flagged row |
| `Report.BannerAsPrinted` | src/components/AssessmentResult.tsx:150-151 | the printed maximum lies 2 above the largest total the options allow, and no answered draft's total reaches it |
| `Report.PrintedMaximumUnreachable` | src/components/AssessmentResult.tsx:150-151 | no answered draft reaches the printed maximum; it exceeds the largest possible total by 2 |
| `Report.ScoreBanner` | src/components/AssessmentResult.tsx:150-151 | the corrected maximum bounds every answered draft's total, and some answered draft reaches it |
| `Report.ScoreBannerMaximumExact` | src/components/AssessmentResult.tsx:150-151 | the corrected maximum bounds every answered total and is reached |
| `Locale.Lookup` | src/contexts/LanguageContext.tsx:407-409 | returns the active table's entry when it is present and non-empty, and the key itself when the entry is missing or empty |
| `Locale.LookupNonEmpty` | src/contexts/LanguageContext.tsx:408 | a non-empty key never translates to the empty string; the result is the key or the table's entry |
| `Locale.LookupReadsActiveTable` | src/contexts/LanguageContext.tsx:407-409 | tables that agree on the active language's table give the same text for every key |
| `Locale.TranslationsCover` | src/contexts/LanguageContext.tsx:3-11 | the tables have one table per language |
| `Locale.LanguageProvider.constructor` | src/contexts/LanguageContext.tsx:405 | the initial language is Chinese |
| `Locale.LanguageProvider.T` | src/contexts/LanguageContext.tsx:407-409 | returns the active table's non-empty entry, or the key when there is none; never empty for a non-empty key |
| `Locale.LanguageProvider.SetLanguage` | src/contexts/LanguageContext.tsx:405 | after the call the active language is the chosen one, and `t` reads only that language's table |
| `Locale.ExampleLookups` | src/contexts/LanguageContext.tsx:404-416 | a known key switches text from Chinese to English when the language changes, and an unknown key shows as itself |

## Findings

| source | as written | input that shows it | evidently intended | confidence | as-written member | corrected member |
|---|---|---|---|---|---|---|
| src/components/AssessmentResult.tsx:151 | the score banner prints the total "/ 21" | the highest answers 4,3,3,3,3,3 total 19, so no answered draft reaches 21 | the banner's maximum is the largest total the options allow, which is 19 (`AssessmentForm.tsx:42-103`) | medium, not executed | `Report.PrintedMaximumUnreachable` | `Report.ScoreBannerMaximumExact` |

## Left out

- Rendering, layout, CSS classes and the toasts are left out. The toasts appear only as the notices that the handlers return.
- The progress percentage `(step / totalSteps) * 100` is left out. It is floating-point display only.
- The webhook `fetch` is left out. It is network I/O, and only its outcome is modelled, as the input `posted`. The payload is built but not serialised to JSON.
- The `toLocaleString` timestamp is left out. It is a clock and locale call, so the model takes an opaque string parameter instead.
- The PDF export (`html2canvas`/`jsPDF`, `AssessmentResult.tsx:75-114`) is left out. It is third-party rasterisation with floating-point page sizes.
- The report's narrative descriptions and the reference pages are left out, because they are data. `RiskView` keeps each level's label, colour tokens and icon.
- The report's basic-information table is left out. It only displays the draft's text fields.
- The mismatch between the two `FormData` types is left out: the result view's type declares `catCount` and omits `q3Score`. The result view gets the precomputed total, and the model passes it the draft.
- `useLanguage`'s check that it is used inside a provider is left out. It is framework plumbing.
- `Index.tsx` and `LanguageSwitcher.tsx` are left out. The switcher only calls `setLanguage`.
- `Locale.LanguageProvider.T` and `Locale.Lookup`: they do not model JavaScript property lookup on inherited object members. A key such as "constructor" would return a non-string inherited value rather than the key. The model treats each table as a plain map.
- Only five sample keys of the translation tables are transcribed. The two real tables have the same 169 keys.
- `Intake.AssessmentForm.UpdateFormData`: it requires the value's kind to match the field (`Fits`). TypeScript accepts `string | number` for any field, but every caller passes text to the text fields and a number to the scored fields.
- Integer width is not modelled: the score uses unbounded integers, and JavaScript numbers add these small integers exactly.
- `parseInt` on the radio group's string value is not modelled. The values passed are already the options' numbers.
- The `isSubmitting` flag's effect of disabling the submit button is not modelled. Concurrent submissions cannot happen in a sequential model. `BeginSubmit` and `EndSubmit` show the state in which the flag is set.
