# Legal-aid case reports — a Dafny model

The application records successful legal-aid cases. A form collects a case
name, a file code, the legal-aid provider, the success criterion, optional
notes and a quality rating (Tốt or Khá). Submitting the form adds the case to
an in-memory list, newest first. A search box filters that list by
case-insensitive substring match on four fields. Each listed case can be
expanded to show its notes, and the list can be exported as a spreadsheet
whose file name carries the current date.

The model follows the program's files:

- `types.dfy`: module `Wrappers` (`Option`, `Result`) and module `Types`.
  `Types` holds the quality enum with its labels, the `Case` record, the
  `Draft` (a case without `id` and `submissionDate`) and an abstract `Date`.
- `search.dfy`: module `Search`. This is the search filter of `App.tsx`,
  with ASCII lower-casing and a substring scan proved equal to "occurs at
  some offset".
- `app.dfy`: module `App`. Class `CaseStore` holds the case list and the
  search term. It has the add handler, which prepends. `DeliverSubmission`
  is the form's submit callback invoking that handler.
- `form.dfy`: module `Form`. Class `CaseForm` holds the draft, the
  `isSubmitting` and `showSuccess` flags, the draft captured by the pending
  submit timer, and the number of pending success timers. The two timers
  become explicit events: `CompleteSubmission` and `SuccessTimeout`.
- `caselist.dfy`: module `CaseList`. It chooses the empty-state placeholder,
  holds the per-item expand flag (class `CaseItem`), and covers the export
  guard, the seven-column rows and the dated file name.
- `decimal.dfy`: module `Decimal`. It covers `toString` of integers and
  `padStart`, with the parsing that inverts them.

The required-field guard tests each of the four required fields with
`!field` (components/CaseForm.tsx:36). So only the empty string is rejected,
and a field holding only spaces passes (`Form.GuardIgnoresNotesAndWhitespace`).

## Model

| member | source | states |
|---|---|---|
| `Types.FromLabel` | types.ts:1-4 | The enum has exactly the two members GOOD and FAIR. Reading a label back gives the member whose label it is. Any other string is no member. |
| `Types.LabelInjective` | types.ts:2-3 | The labels 'Tốt' and 'Khá' differ, so a label identifies its member. |
| `Types.CaseDeterminedByDraft` | types.ts:6-15 | A case is its draft part (the four strings, quality, optional notes) plus `id` and `submissionDate`. Nothing else distinguishes two cases. |
| `App.WithIdentity` | App.tsx:11-16 | The stored case copies every draft field unchanged (`DraftOf(c) == d`). It carries the given `id` and date. |
| `App.PrependKeepsIdsUnique` | App.tsx:17 | Prepending a case whose id is fresh keeps all ids in the list distinct. |
| `App.CaseStore.constructor` | App.tsx:8-9 | The store starts with no cases and an empty search term. |
| `App.CaseStore.AddCase` | App.tsx:11-18 | The list becomes one longer. The new case is element 0. The old list follows unchanged. Ids stay unique. The search term is not touched. |
| `App.CaseStore.SetSearchTerm` | App.tsx:9 | Typing into the search box replaces the search term and nothing else. |
| `App.CaseStore.FilteredCases` | App.tsx:20-31 | The list shown is a subsequence of the stored list, never longer. It is the whole list for an empty term. It holds exactly the stored cases the term matches. |
| `App.AddThenFilter` | App.tsx:17-30 | After an add, the filtered list is the old filtered list. The new case is in front of it exactly when the current term shows that case. |
| `App.ScenarioFoundByFileCode` | App.tsx:24-29 | A stored case with file code "HS-1" is found by "HS-1" and by "hs-1". |
| `App.ScenarioNoMatch` | App.tsx:24-29 | "zzz" occurs in none of the example case's searched fields, so it finds nothing. |
| `App.EmptyStateChoice` | components/CaseList.tsx:115-123 | Over the whole app: "no reports yet" shows iff no case is stored and the term is empty. "No results" shows iff the term is non-empty and no stored case matches it. |
| `App.DeliverSubmission` | components/CaseForm.tsx:42-46 | When the submit timer fires, the add handler receives the draft captured when submit was accepted. That draft passed the guard. It becomes the new first case, and the form is reset to its initial draft. |
| `Search.LowerForgetsCase` | App.tsx:24 | ASCII lower-casing is idempotent. Lower-casing the upper-cased string gives the same result as lower-casing the original. |
| `Search.IncludesIff` | App.tsx:26-29 | The substring scan answers true exactly when the needle occurs at some offset of the haystack. |
| `Search.MissingFirstChar` | App.tsx:26-29 | A needle whose first character is absent from the haystack is not included in it. |
| `Search.SubsequenceNotLonger` | App.tsx:25 | A subsequence is never longer than the sequence, and each of its elements is in the sequence. |
| `Search.FilterEmptyTerm` | App.tsx:21-23 | An empty search term returns the case list unchanged: the same elements in the same order. |
| `Search.FilterIsSubsequence` | App.tsx:25 | The filter result is a subsequence of the input, keeping relative order, and never longer than the input. |
| `Search.FilterMembership` | App.tsx:20-30 | A case is in the result iff it is in the input and either the term is empty or the term matches one of the four searched fields. |
| `Search.FilterMembershipByField` | App.tsx:24-30 | For a non-empty term, a case is kept iff the lower-cased term occurs at some offset of one of the lower-cased name, file code, provider or success criterion. |
| `Search.MatchesIgnoresUnsearchedFields` | App.tsx:25-30 | Changing `notes`, `quality`, `id` or the date never changes whether a case matches. |
| `Search.KeepMatchingIdempotent` | App.tsx:25-30 | Applying the array filter a second time with the same lower-cased term changes nothing. |
| `Search.FilterIdempotent` | App.tsx:20-31 | Filtering the filtered list again with the same term gives the same list. |
| `Search.FilterCaseInsensitive` | App.tsx:24 | Two terms with the same lower-cased form give the same result. |
| `Search.FilterIgnoresTermCase` | App.tsx:24 | The upper-cased term and the lower-cased term each select the same cases as the term itself. |
| `Search.FilterPrepend` | App.tsx:25 | Filtering a list with a case in front filters the rest. The front case is kept exactly when the term is empty or matches it. |
| `Form.InitialFormData` | components/CaseForm.tsx:11-18 | The initial draft has all five text fields empty (`notes` is `''`) and quality GOOD. |
| `Form.FormDataExtensional` | components/CaseForm.tsx:11-18 | A draft is determined by its five text fields and its quality. So the contracts of `SetField` and `SetQuality` fix their results. |
| `Form.SetField` | components/CaseForm.tsx:25-28 | An edit sets the named field to the new value. It leaves every other text field and the quality unchanged. |
| `Form.SetQuality` | components/CaseForm.tsx:30-32 | A quality change sets only `quality`. |
| `Form.RequiredFilledIff` | components/CaseForm.tsx:36 | The guard passes iff every text field except `notes` is not the empty string. |
| `Form.GuardIgnoresNotesAndWhitespace` | components/CaseForm.tsx:36 | Notes never affect the guard. Required fields holding only a space pass, since nothing is trimmed. |
| `Form.InitialFormDataRejected` | components/CaseForm.tsx:11-18 | Submitting the untouched initial draft is always rejected. |
| `Form.SubmittedDraftFilled` | components/CaseForm.tsx:36-43 | A draft that passed the guard reaches `onSubmit` with its four required fields non-empty. |
| `Form.CaseForm.CurrentPhase` | components/CaseForm.tsx:149-164 | The button shows Submitting exactly while `isSubmitting` holds. It shows success exactly when not submitting and `showSuccess` holds. |
| `Form.CaseForm.constructor` | components/CaseForm.tsx:21-23 | The form starts with the initial draft, both flags false, and no timer pending. |
| `Form.CaseForm.HandleChange` | components/CaseForm.tsx:25-28 | A text edit replaces the draft with `SetField` of the old draft. Flags and timers are unchanged. |
| `Form.CaseForm.HandleRadioChange` | components/CaseForm.tsx:30-32 | A radio change replaces the draft with `SetQuality` of the old draft. Flags and timers are unchanged. |
| `Form.CaseForm.HandleSubmit` | components/CaseForm.tsx:34-41 | While submitting, the button is disabled and nothing changes. If a required field is empty, nothing changes. Otherwise `isSubmitting` becomes true and the current draft is captured for the timer. The draft and `showSuccess` stay as they were. |
| `Form.CaseForm.CompleteSubmission` | components/CaseForm.tsx:42-47 | The captured draft is handed over. The draft resets to `initialFormData`. `isSubmitting` becomes false and `showSuccess` true. One more success timer is pending. The phase becomes Success. |
| `Form.CaseForm.SuccessTimeout` | components/CaseForm.tsx:47 | `showSuccess` becomes false and one pending timer is consumed. Nothing else changes. |
| `CaseList.View` | components/CaseList.tsx:115-164 | "No reports yet" iff the list is empty and the term is empty. "No results" iff the list is empty and the term is not. Otherwise all given cases are listed. |
| `CaseList.CaseItem.constructor` | components/CaseList.tsx:33-34 | Each item starts collapsed, so its notes panel is not shown. |
| `CaseList.CaseItem.Toggle` | components/CaseList.tsx:56-71 | The control exists only when the case has non-empty notes. A click flips that item's flag and nothing else. The notes panel (`NotesVisible`) switches between shown and hidden with each click. |
| `CaseList.RowDeterminesShownFields` | components/CaseList.tsx:91-99 | Two cases give the same row iff they agree on the four text fields, quality, notes read with absent as `''`, and formatted date. |
| `CaseList.Rows` | components/CaseList.tsx:91-99 | There is exactly one row per case, in the same order. |
| `CaseList.RowsShowCases` | components/CaseList.tsx:92-97 | Each row carries name, file code, provider and criterion verbatim. Its quality label reads back as the case's quality. Absent notes become `''`, and present notes are copied. |
| `CaseList.FileNameRoundTrip` | components/CaseList.tsx:106-110 | The file name is `Bao_cao_vu_viec_TGPL_` + year + `-` + MM + `-` + DD + `.xlsx`. Parsing it gives back the year, the month counted from 1 (`getMonth()+1`), and the day. |
| `CaseList.HandleExport` | components/CaseList.tsx:84-113 | Export fails iff the library is absent or the list is empty. Otherwise: the fixed sheet name, the seven column titles in order (the keys of each exported object, written as the header row), one row per case in order, and the dated file name. |
| `CaseList.ExportButtonMatchesGuard` | components/CaseList.tsx:131 | The button is disabled exactly when the export guard would reject for lack of cases. |
| `Decimal.IntToStringRoundTrip` | components/CaseList.tsx:107 | The decimal rendering of the year parses back to the same integer, negative years included. |
| `Decimal.PadStart` | components/CaseList.tsx:108-109 | The result is at least `width` long. It ends with the input, and every character before the input is the fill character. |
| `Decimal.TwoDigits` | components/CaseList.tsx:108-109 | A month or day below 100, rendered and padded, is exactly two digits that still denote it. |

## Left out

- Rendering is left out: JSX, CSS classes, the quality badge colours and the icon components are static markup with no logic.
- The spreadsheet library calls are left out (`json_to_sheet`, `book_new`, `book_append_sheet`, `writeFile`). The export stops at the workbook value (sheet name, rows, file name) that would be handed to the library. The download is a side effect outside the model.
- `crypto.randomUUID()` is a parameter. `App.CaseStore.AddCase` requires the id to be unused, and the program itself never checks this.
- The clock is a parameter: `Date` is year, 0-based month index and day, as the `Date` getters return them.
- `toLocaleDateString('vi-VN')` is a function parameter `formatDate`, so the locale's date format is not modelled.
- `Search.LowerForgetsCase`: lower-casing and upper-casing change only ASCII letters. The full Unicode case mapping of JavaScript, including Vietnamese letters with diacritics, is not modelled.
- The two `setTimeout` delays (1000 ms and 3000 ms) are not modelled as time. Each timer firing is an explicit event (`CompleteSubmission`, `SuccessTimeout`) that the caller may trigger only while that timer is pending.
- `alert` messages and the browser's own `required` validation are browser behaviour and are left out. The guard's outcome is returned as `MissingRequired`, and the export failure as `NoDataOrLibrary`.
- A disabled submit button ignores presses; `HandleSubmit` models this as the `Disabled` outcome, which lies outside the submit handler's own code.
- `CaseList.CaseItem`: React keeps one expand flag per rendered item, keyed by case id. When filtering unmounts an item, its flag is lost. This mount and unmount behaviour is not modelled.
