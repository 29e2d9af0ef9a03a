# Volunteer and beneficiary admin console — a verified model of its logic

This project models the logic of an admin console for a volunteer
organisation. The console is a React single-page application. It has five
parts:

- **Applicant lists.** The Postulants and AdviserVolunteers pages load every
  volunteer applicant once. They then narrow the list in the browser: a
  free-text search, then exact-match filters, each an `if` block that
  replaces the list with the records its callback accepts. After that they
  count the rows, split them into pages of ten and show one page. They also
  derive de-duplicated option lists from the records and name areas from a
  fixed id table.
- **Task store.** `TaskProvider` holds a list of tasks. It appends a created
  task, drops deleted ones (only when the server answers 202) and merges
  updated ones.
- **Detail pages.**
  - PostulantDetail approves or rejects an applicant. A decision's button is
    disabled while a decision is in flight, or when the applicant already
    has the status the decision leads to. The status only changes when the
    confirmation is closed.
  - VoluntarioDetail edits, saves and deletes a volunteer.
  - Both draw an availability grid: day names are translated to Spanish,
    unknown days are skipped, and the last entry for a day wins.
- **Validators.**
  - The beneficiary service's empty-string clean-up.
  - The role check `hasAnyRole`.
  - BeneficiaryList's server-side paging state and its upload check: the
    MIME type first, then the size.
  - The reset-password form's check order.
- **Session store.** `AuthService` writes and removes the access token, the
  refresh token and the user in local storage, which is modelled as a
  string-to-string map. It clears all three when a refresh fails, and it
  maps errors to messages.

How the model is shaped:

- Each page with state is a class with that state as fields. Each handler is
  a method with a `modifies` clause. A handler that awaits a request is split
  where the await happens, or takes the request's outcome as a parameter.
- Expressions become functions.
- The `forEach` loops (schedule grid, payload clean-up) and the filter
  effects' step-by-step reassignment become methods with loops. Each is
  proved equal to a specification function.
- Properties of those functions are proved as lemmas.

Shared modules:

- `Js` holds JavaScript values, truthiness, property read and object spread.
- `Text` holds the ASCII `toLowerCase`, `includes`, `trim` and integer
  rendering.
- `Listing` holds `filter`, `[...new Set(xs)]`, `slice` and the page
  arithmetic.
- `Volunteers` and `Areas` hold the applicant record, the search predicate,
  the option lists and the area table.
- `Filtering` holds the filter blocks that both list pages share.

A list page computes `totalPages` as `Math.ceil(n / 10)`, which is 0 when
nothing matches; the model keeps this (`PageCount` states `n == 0 <==>
pages == 0`).

## Model

| member | source | states |
|---|---|---|
| Js.Get | src/context/VolunterContext.tsx:51 | a property that is not there reads as `undefined`, any other as its value |
| Js.Spread | src/context/VolunterContext.tsx:51 | `{...a, ...b}` has the keys of both, and `b`'s value wins on a shared key |
| Text.Lower | src/pages/Postulants.tsx:75-77 | `toLowerCase` keeps the length and lower-cases each character |
| Text.LowerIdempotent | src/pages/Postulants.tsx:75-77 | lower-casing twice is lower-casing once |
| Text.Contains | src/pages/Postulants.tsx:75-79 | `includes` is true exactly when the needle occurs at some index of the haystack |
| Text.Trim | src/pages/Postulants.tsx:73 | `trim()` is never longer than its input, and is empty exactly when every character is ECMAScript whitespace |
| Text.TrimEmptyIffBlank | src/pages/Postulants.tsx:73 | trimming both ends leaves nothing exactly when every character is ECMAScript whitespace |
| Text.NatToString | src/pages/Postulants.tsx:89 | the decimal rendering is non-empty and all digits |
| Text.IntToString | src/pages/Postulants.tsx:89 | `toString()` of an integer starts with "-" exactly when it is negative, and is digits after the sign |
| Text.NatToStringInjective | src/pages/Postulants.tsx:89 | different naturals render differently |
| Text.IntToStringInjective | src/pages/Postulants.tsx:89 | different integers render differently, so comparing `id.toString()` compares ids |
| Listing.Filter | src/pages/Postulants.tsx:74-80 | `filter` never lengthens a list |
| Listing.FilterMembers | src/pages/Postulants.tsx:74-80 | the result holds exactly the elements the callback accepts |
| Listing.FilterIsSubsequence | src/pages/Postulants.tsx:74-80 | `filter` only removes elements and keeps the order of the rest |
| Listing.FilterKeepsAll | src/pages/Postulants.tsx:70 | a callback that accepts everything returns the list unchanged |
| Listing.FilterCongruent | src/pages/Postulants.tsx:84-129 | two callbacks that agree on the elements give the same list |
| Listing.FilterFuse | src/pages/Postulants.tsx:84-129 | filtering twice in a row is filtering once by the conjunction |
| Listing.Dedup | src/pages/Postulants.tsx:168-171 | `[...new Set(s)]` holds each element of `s` and nothing else, with no duplicate, in the order of `s` (a subsequence of it) |
| Listing.PageCount | src/pages/Postulants.tsx:133 | `Math.ceil(n/10)` is the fewest pages of ten that hold `n` rows, and 0 exactly when `n` is 0 |
| Listing.SliceIndex | src/pages/Postulants.tsx:679 | `slice` clamps an index into `[0, len]` and leaves an in-range index as it is |
| Listing.JsSlice | src/pages/Postulants.tsx:679 | a slice is never longer than the array |
| Listing.PageRows | src/pages/Postulants.tsx:679 | page `p >= 1` shows the rows from `(p-1)*10` to `p*10` or the end, at most ten, and at least one on a page up to `PageCount` |
| Listing.PagesUpToPrefix | src/pages/Postulants.tsx:679 | pages 1 to `k` together are the first `10k` rows |
| Listing.PagesCoverAll | src/pages/Postulants.tsx:133 | pages 1 to `totalPages` together show every filtered row once, in order |
| Volunteers.MatchesText | src/pages/Postulants.tsx:74-80 | a record matches exactly when the lower-cased term occurs in its lower-cased name, last name or e-mail, or the term as typed occurs in its phone or identification number; the empty term matches every record |
| Volunteers.Column | src/pages/Postulants.tsx:169 | `map(p => p[field])` reads the field of each record, in order |
| Volunteers.UniqueTruthy | src/pages/Postulants.tsx:169-170 | `[...new Set(values.filter(Boolean))]` holds each truthy value once and no falsy value |
| Volunteers.UniqueValues | src/pages/Postulants.tsx:168-171 | the option list holds a value exactly when it is truthy and some loaded record has it in that field, each once |
| Areas.GetAreaName | src/pages/AdviserVolunteers.tsx:102-117 | ids 1 to 11 get their table name, any other id gets "Área " and the id |
| Areas.AreaLabel | src/pages/VoluntarioDetail.tsx:441 | the area tag is "-" exactly when the id is not 1 to 11, otherwise the table name |
| Areas.AreaTableDomain | src/pages/AdviserVolunteers.tsx:103-115 | the area table covers exactly the ids 1 to 11 |
| Areas.GetAreaNameFallbackDistinct | src/pages/AdviserVolunteers.tsx:116 | an unknown id's name is shared with no other id, known or unknown |
| Filtering.Active | src/pages/Postulants.tsx:73 | the search block runs exactly when the term has a non-whitespace character; a filter block runs exactly when its filter is present and not "" |
| Filtering.Keeps | src/pages/Postulants.tsx:84-129 | each exact-match block keeps a record exactly when the record's field is strictly equal (`===`) to the selected string; the "was a volunteer" block compares the flag with `value === 'true'` |
| Filtering.Narrow | src/pages/Postulants.tsx:84-129 | one `if` block, taken or not, leaves the records that pass it and all earlier blocks |
| Filtering.ApplyFilters | src/pages/Postulants.tsx:69-130 | the effect's chain of blocks produces the loaded records that pass every block, in order |
| Filtering.ShortlistIsSubsequence | src/pages/Postulants.tsx:69-131 | the shown list is a subsequence of the loaded list |
| Filtering.ShortlistMembers | src/pages/Postulants.tsx:69-131 | a record is shown exactly when it is loaded and passes the search and every set filter |
| Filtering.ShortlistUnconstrained | src/pages/Postulants.tsx:73-129 | a blank or whitespace-only term with every filter "" shows every loaded record |
| Filtering.SetFilterNarrows | src/pages/Postulants.tsx:145-150 | setting a filter that was unset only removes records from the shown list |
| Filtering.AreaFilterSelectsId | src/pages/Postulants.tsx:88-90 | selecting the rendering of an area id keeps exactly the records of that area |
| Filtering.WasVoluntaryFilter | src/pages/Postulants.tsx:114-117 | a set "was a volunteer" filter keeps the records whose flag equals whether the value is "true" |
| Postulants.ClearedFilters | src/pages/Postulants.tsx:152-165 | all ten filter names are present and unset |
| Postulants.PostulantRules | src/pages/Postulants.tsx:69-130 | the effect runs the search first and ten exact-match blocks after it |
| Postulants.PostulantsPage.constructor | src/pages/Postulants.tsx:22-44 | the page starts loading, with nothing loaded, page 1 of 1 and no filter set |
| Postulants.PostulantsPage.FetchPostulants | src/pages/Postulants.tsx:49-66 | a response becomes both lists and sets the count and page count; a failure sets the error and keeps the lists; loading ends either way |
| Postulants.PostulantsPage.Refilter | src/pages/Postulants.tsx:131-134 | after a recompute the shown list is the shortlist, the count is its length, the page count is `ceil(n/10)`, and the page is 1 |
| Postulants.PostulantsPage.HandleSearch | src/pages/Postulants.tsx:141-143 | the term is stored as typed |
| Postulants.PostulantsPage.HandleFilterChange | src/pages/Postulants.tsx:145-150 | only the named filter changes |
| Postulants.PostulantsPage.ClearFilters | src/pages/Postulants.tsx:152-165 | all ten filters go back to "" |
| Postulants.PostulantsPage.HandlePageChange | src/pages/Postulants.tsx:187-189 | the page becomes the chosen one |
| Postulants.PostulantsPage.VisibleRows | src/pages/Postulants.tsx:679 | at most ten rows, at least one on a valid page, all from the filtered list |
| Postulants.PostulantsPage.UniqueUniversities | src/pages/Postulants.tsx:173-178 | each truthy university of the loaded records, once |
| Postulants.PostulantsPage.UniqueHowDidYouFindUs | src/pages/Postulants.tsx:180-185 | each non-empty "how did you find us" answer of the loaded records, once |
| Advisers.ApprovedAdvisers | src/pages/AdviserVolunteers.tsx:51 | the pre-filter keeps only approved advisers, each taken from the response, and never lengthens the list |
| Advisers.ApprovedAdvisersExact | src/pages/AdviserVolunteers.tsx:51 | the loaded list is exactly the approved advisers of the response, in response order |
| Advisers.ClearedAdviserFilters | src/pages/AdviserVolunteers.tsx:99 | all five filter names are present and unset |
| Advisers.AdviserRules | src/pages/AdviserVolunteers.tsx:65-90 | the effect runs the search first and five exact-match blocks after it |
| Advisers.OtherFiltersIgnored | src/pages/AdviserVolunteers.tsx:76-90 | a filter the page does not offer has no effect on its list |
| Advisers.AdvisersPage.constructor | src/pages/AdviserVolunteers.tsx:25-41 | the page starts loading, with nothing loaded, page 1 of 1 and no filter set |
| Advisers.AdvisersPage.FetchAdvisers | src/pages/AdviserVolunteers.tsx:45-61 | a response's approved advisers become both lists and set the counts; a failure sets the error; only advisers are ever loaded |
| Advisers.AdvisersPage.Refilter | src/pages/AdviserVolunteers.tsx:65-95 | after a recompute the shown list is the shortlist, the count is its length, the page count is `ceil(n/10)`, and the page is 1 |
| Advisers.AdvisersPage.HandleSearch | src/pages/AdviserVolunteers.tsx:97 | the term is stored as typed |
| Advisers.AdvisersPage.HandleFilterChange | src/pages/AdviserVolunteers.tsx:98 | only the named filter changes |
| Advisers.AdvisersPage.ClearFilters | src/pages/AdviserVolunteers.tsx:99 | all five filters go back to "" |
| Advisers.AdvisersPage.HandlePageChange | src/pages/AdviserVolunteers.tsx:278 | the page becomes the chosen one |
| Advisers.AdvisersPage.VisibleRows | src/pages/AdviserVolunteers.tsx:251 | at most ten rows, at least one on a valid page |
| Advisers.AdvisersPage.GetUnique | src/pages/AdviserVolunteers.tsx:100 | each truthy value of the field over the loaded advisers, once |
| Tasks.HasId | src/context/VolunterContext.tsx:43 | a task has the id exactly when its `id` property is present and is that number |
| Tasks.RemoveId | src/context/VolunterContext.tsx:43 | no task with the id is left, and every other task stays |
| Tasks.RemoveIdKeepsOrder | src/context/VolunterContext.tsx:43 | the remaining tasks keep their order |
| Tasks.RemoveAbsentId | src/context/VolunterContext.tsx:43 | removing an id no task has changes nothing |
| Tasks.MergeWhere | src/context/VolunterContext.tsx:51 | the length and order are kept; a task with the id gets the response's values over its own; the others are unchanged |
| Tasks.MergeAbsentId | src/context/VolunterContext.tsx:51 | updating an id no task has changes nothing |
| Tasks.MergeIdempotent | src/context/VolunterContext.tsx:51 | the same update applied twice is applied once |
| Tasks.TaskStore.constructor | src/context/VolunterContext.tsx:25 | the store starts empty |
| Tasks.TaskStore.Load | src/context/VolunterContext.tsx:27-31 | the fetched list replaces the state |
| Tasks.TaskStore.CreateTask | src/context/VolunterContext.tsx:34-38 | the created task is appended, and the earlier tasks are unchanged |
| Tasks.TaskStore.DeleteTask | src/context/VolunterContext.tsx:40-45 | only status 202 removes the tasks with the id; any other status keeps the list |
| Tasks.TaskStore.UpdateTask | src/context/VolunterContext.tsx:47-52 | the response is merged into the tasks with the id |
| BeneficiaryService.Scrubbed | src/services/beneficiary/beneficiary.service.ts:11-21 | same keys, no empty string left, "" becomes `undefined`, and every other value (including `false`, `0`, `null`) is kept |
| BeneficiaryService.ScrubbedIdempotent | src/services/beneficiary/beneficiary.service.ts:15-19 | cleaning twice is cleaning once |
| BeneficiaryService.ScrubbedFixedPoint | src/services/beneficiary/beneficiary.service.ts:15-19 | a payload is left as it is exactly when it has no empty string |
| BeneficiaryService.FormatBeneficiaryData | src/services/beneficiary/beneficiary.service.ts:11-21 | the key-by-key loop over the copy produces the cleaned payload |
| BeneficiaryService.Create | src/services/beneficiary/beneficiary.service.ts:45-52 | POST `/beneficiary` with the cleaned payload, never the raw one |
| BeneficiaryService.Update | src/services/beneficiary/beneficiary.service.ts:54-64 | PATCH `/beneficiary/update/<id>` with the cleaned payload |
| Roles.SomeRoleIs | src/types/roles.enum.ts:10 | `some` is true exactly when one allowed role's value equals the user's role |
| Roles.HasAnyRole | src/types/roles.enum.ts:8-11 | a null or empty role fails; otherwise the role passes exactly when it is the value of an allowed role |
| Roles.HasAnyRoleExactly | src/types/roles.enum.ts:1-11 | a user passes exactly when their role is the name of one of the allowed roles |
| Roles.NoAllowedRoles | src/types/roles.enum.ts:10 | with no allowed role nobody passes |
| Roles.AllowMoreRoles | src/types/roles.enum.ts:10 | allowing more roles never turns a pass into a failure |
| Schedule.DayMapCoversDays | src/pages/PostulantDetail.tsx:370-379 | every row label comes from exactly one English day, and every day has a row |
| Schedule.ScheduleOf | src/pages/VoluntarioDetail.tsx:237-247 | every row the entries fill is one of the seven Spanish day rows |
| Schedule.BuildScheduleMap | src/pages/PostulantDetail.tsx:386-397 | the `forEach` loop builds the grid of the entries taken in order |
| Schedule.ScheduleRows | src/pages/VoluntarioDetail.tsx:239-241 | a row is filled exactly when some entry with a known day translates to it |
| Schedule.ScheduleLastEntryWins | src/pages/VoluntarioDetail.tsx:242-246 | a row holds the truthiness of the three periods of the last entry for its day |
| StatusLabels.StatusLabel | src/pages/VoluntarioDetail.tsx:444 | a known status shows its label, any other status shows itself |
| StatusLabels.StatusLabelFallback | src/pages/VoluntarioDetail.tsx:444 | a status shows as itself exactly when it has no label |
| PostulantDetail.PostulantDetailPage.constructor | src/pages/PostulantDetail.tsx:351-354 | nothing is in flight, no message, no confirmation, no local status |
| PostulantDetail.PostulantDetailPage.EffectiveStatus | src/pages/PostulantDetail.tsx:479-480 | the local status when set, otherwise the loaded one |
| PostulantDetail.PostulantDetailPage.Disabled | src/pages/PostulantDetail.tsx:619-626 | a button is disabled while a decision is in flight; otherwise exactly when the effective status is the decision's target; with nothing in flight, a disabled button leaves the other one enabled |
| PostulantDetail.PostulantDetailPage.StatusTag | src/pages/PostulantDetail.tsx:480 | the label of the effective status, or the status itself |
| PostulantDetail.PostulantDetailPage.BeginAction | src/pages/PostulantDetail.tsx:436-440 | without an id nothing happens; otherwise the decision is in flight, the message is cleared, the POST goes to `/api/volunteer/<id>/<approve or reject>`, and both buttons are disabled |
| PostulantDetail.PostulantDetailPage.SettleAction | src/pages/PostulantDetail.tsx:441-449 | an ok response opens the confirmation; a failure sets the error message; nothing is in flight afterwards |
| PostulantDetail.PostulantDetailPage.Click | src/pages/PostulantDetail.tsx:616-626 | a disabled button does nothing; an enabled one with an id marks the decision in flight, clears the message and posts to `/api/volunteer/<id>/<approve or reject>`; an enabled one without an id does nothing |
| PostulantDetail.PostulantDetailPage.CloseModalConfirm | src/pages/PostulantDetail.tsx:464-468 | closing sets the status to the confirmed decision's target, disables that button, and clears the confirmation |
| VoluntarioDetail.WithField | src/pages/VoluntarioDetail.tsx:397-399 | the named field takes the value, and every other field keeps its value |
| VoluntarioDetail.WithFieldLastWins | src/pages/VoluntarioDetail.tsx:397-399 | setting a field twice keeps the second value |
| VoluntarioDetail.WithFieldCommutes | src/pages/VoluntarioDetail.tsx:397-399 | setting two different fields in either order gives the same form |
| VoluntarioDetail.VoluntarioDetailPage.constructor | src/pages/VoluntarioDetail.tsx:365-372 | no record, no form, loading, no error, editor and dialogs closed |
| VoluntarioDetail.VoluntarioDetailPage.SetData | src/pages/VoluntarioDetail.tsx:393-395 | whenever a record arrives, the form is reset to it |
| VoluntarioDetail.VoluntarioDetailPage.LoadVolunteer | src/pages/VoluntarioDetail.tsx:374-391 | without an id nothing happens; a response becomes the record and the form; a failure sets the load error |
| VoluntarioDetail.VoluntarioDetailPage.HandleInput | src/pages/VoluntarioDetail.tsx:397-399 | only the named field of the form changes |
| VoluntarioDetail.VoluntarioDetailPage.HandleSave | src/pages/VoluntarioDetail.tsx:401-415 | a successful update closes the editor, shows the notice and reloads; a failed one only sets the error |
| VoluntarioDetail.VoluntarioDetailPage.HandleDelete | src/pages/VoluntarioDetail.tsx:417-429 | only a successful delete goes to `/staff`; a failure sets the error and stays |
| BeneficiaryList.StatusParam | src/pages/beneficiaries/BeneficiaryList.tsx:116 | no status is sent exactly when the filter is "all"; otherwise the filter is sent |
| BeneficiaryList.PageSizeOrDefault | src/pages/beneficiaries/BeneficiaryList.tsx:165 | a page size of 0 falls back to 10; any other is kept |
| BeneficiaryList.BackToFirstPage | src/pages/beneficiaries/BeneficiaryList.tsx:160-167 | page 1, the page size kept (or 10), the total kept |
| BeneficiaryList.BackToFirstPageIdempotent | src/pages/beneficiaries/BeneficiaryList.tsx:160-167 | resetting twice is resetting once |
| BeneficiaryList.IsExcel | src/pages/beneficiaries/BeneficiaryList.tsx:183-184 | exactly the two Excel MIME types are accepted |
| BeneficiaryList.UnderSizeLimit | src/pages/beneficiaries/BeneficiaryList.tsx:191 | `size / 1024 / 1024 < 5` holds exactly when the file is under 5242880 bytes |
| BeneficiaryList.HandleUpload | src/pages/beneficiaries/BeneficiaryList.tsx:182-206 | a non-Excel file is refused with its message before the size is looked at; a file of 5 MiB or more is refused; only a sent file reports the import, and only a successful import refetches |
| BeneficiaryList.BeneficiaryListPage.constructor | src/pages/beneficiaries/BeneficiaryList.tsx:93-102 | page 1 of size 10, no term, status "all" |
| BeneficiaryList.BeneficiaryListPage.Query | src/pages/beneficiaries/BeneficiaryList.tsx:112-117 | the request carries the page, the size, the term, and the status unless it is "all" |
| BeneficiaryList.BeneficiaryListPage.HandleSearch | src/pages/beneficiaries/BeneficiaryList.tsx:158-168 | the new term, back to page 1, the page size kept |
| BeneficiaryList.BeneficiaryListPage.HandleStatusFilter | src/pages/beneficiaries/BeneficiaryList.tsx:170-180 | the new status, back to page 1, the page size kept |
| BeneficiaryList.BeneficiaryListPage.FetchBeneficiaries | src/pages/beneficiaries/BeneficiaryList.tsx:108-135 | a response replaces the rows and takes total, page and size from the server; a failure shows an error and keeps both |
| ResetPassword.ResetPasswordPage.constructor | src/pages/ResetPasswordPage.tsx:6-11 | empty fields, no message, not loading |
| ResetPassword.ResetPasswordPage.SetNewPassword | src/pages/ResetPasswordPage.tsx:7 | the field takes the typed value |
| ResetPassword.ResetPasswordPage.SetConfirm | src/pages/ResetPasswordPage.tsx:8 | the field takes the typed value |
| ResetPassword.ResetPasswordPage.Submit | src/pages/ResetPasswordPage.tsx:13-28 | a mismatch is reported first, then a missing token; a request is made exactly when the passwords match and a token is present, and then the form is loading |
| ResetPassword.ResetPasswordPage.Settle | src/pages/ResetPasswordPage.tsx:28-35 | the success or the error message, and loading ends |
| Auth.HandleError | src/services/auth.service.ts:65-71 | the server's message, "Error en el servidor" for an axios error without one, "Error inesperado" otherwise |
| Auth.SessionEntries | src/services/auth.service.ts:23-25 | a login writes exactly the three session keys |
| Auth.TokenStore.constructor | src/services/auth.service.ts:18 | the store starts with the given local-storage contents |
| Auth.TokenStore.Login | src/services/auth.service.ts:19-31 | a truthy access token stores the three entries; otherwise the store is unchanged; a failure reports `handleError` and leaves the store |
| Auth.TokenStore.Logout | src/services/auth.service.ts:33-37 | exactly the three session keys are removed, every other key reads as before, and there is no current user |
| Auth.TokenStore.GetItem | src/services/auth.service.ts:40 | a stored key reads its value, any other reads null |
| Auth.TokenStore.RefreshToken | src/services/auth.service.ts:38-54 | a request is sent exactly when a non-empty refresh token is stored; a success overwrites only the access token and returns it; any failure removes all three keys and leaves no current user; other keys are never touched |
| Auth.TokenStore.GetCurrentUser | src/services/auth.service.ts:57-63 | null when the user entry is absent or empty, otherwise the stored text |

## Left out

- Rendering: JSX, styles, icons, modals as visuals, and the charts.
- Network requests: each one's outcome (a response, a failure, a status code) is a parameter of the method that awaits it. The services that only wrap HTTP calls are not modelled.
- Async interleaving: React state updates and effect scheduling, and what happens when two requests overlap or settle after unmount. A handler that awaits is split at the await, or takes the outcome as a parameter.
- Postulants.PostulantsPage.Refilter: the filter effect is a method the caller runs after a change; React's dependency tracking that triggers it is not modelled.
- Advisers.AdvisersPage.Refilter: same as on the Postulants page.
- Filtering.Keeps: the year and month blocks read dates through `new Date(...)`, which depends on the time zone and the date format. They are modelled as extractor functions supplied when the page is created.
- Text.Lower: lower-cases the ASCII letters only; Unicode case mapping is not modelled.
- Filtering.ApplyFilters: the page writes its blocks out one by one; the model runs the same blocks, in the same order, as a loop over a list of rules.
- Tasks.HasId: the source compares with loose `==`/`!=`, which would also match an id held as a numeric string. The model matches numbers only.
- Schedule.DayMap: a lookup of a key inherited from `Object.prototype` (such as "constructor") is truthy in JavaScript; the model's map has only the seven days.
- Auth.TokenStore.GetCurrentUser: `JSON.parse` (and `JSON.stringify` in login) are not modelled; the stored text is returned as it is, and a parse error is not modelled.
- Auth.TokenStore.RefreshToken: a server response without `accessToken` would store the text "undefined"; the model's new token is always a string.
- Auth.TokenStore.Login: the response fields are strings; a missing `refreshToken` stored as "undefined" is not modelled.
- VoluntarioDetail.VoluntarioDetailPage: the toggles that only open or close UI (`setEditMode` from the edit button, `setShowDeleteConfirm` from the delete button, hiding the success notice) are not modelled as separate methods.
- BeneficiaryList.BeneficiaryListPage: `handleTableChange` and row selection (antd table events) are not modelled. Page fields are integers; the antd `TableParams` optional shape is reduced to `Pagination`.
- Number values are integers: the fields the model compares are ids, sizes and counts. The age computation and date formatting on the detail pages depend on `Date` and floating point, and are left out.
- Form rules enforced by the antd `Form` library, and `dayjs` formatting, are foreign code and are not modelled.
- PostulantDetail: loading the profile (`data`) is not modelled; the loaded status is a constant of the page.
