# Job-card workflow: a Dafny model

This project models the browser side of a job-card workflow. A requester
fills in a job card. The head of the card's department approves, edits or
rejects it. The accounts team then disburses funds against approved cards.
Each role has a dashboard of figures derived from the list of job cards.

The model covers these parts of the system:

- **Shared vocabulary** (`js_values.dfy`, `lists.dfy`, `job_cards.dfy`,
  `notifications.dfy`):
  - JavaScript values and plain objects (`Record`, a map from field name to value);
  - truthiness and `||`;
  - `String.prototype.trim` and integer `Number(...)`;
  - `Array.prototype.filter` and `new Set(...)`;
  - the job-card status tests;
  - the submission date and its week, month, year and day windows;
  - `Math.round` of a percentage;
  - the snackbar notification.
- **Dashboard** (`dashboard.dfy`): the figures each role's dashboard
  derives from the cards. These are status counts, the success rate, the
  department list and pending table, cards approved today, the week count,
  department progress, processed today, the amount total and the
  completion rate.
- **Department history** (`department_history.dfy`): the department's cards
  and the six counts shown above them.
- **Approval queue** (`departmental_approvals.dfy`): a state machine
  over the department's pending cards (view, edit, save, approve, two-step
  reject). The handlers are pure `After…` functions on a `ScreenState`.
  The class `ApprovalsScreen` keeps that state in fields, and each of its
  methods is proved to produce `After…(old(State()))`.
- **Accounts panel** (`accounts_panel.dfy`): the three lists and the
  fetch fallback, process-funds, the receipt checkbox, and the report
  filters with their department chips. It uses the same split as the
  approval queue: `After…` functions, and the class `AccountsScreen`.
- **Routes** (`routes.dfy`): the `ProtectedRoute` decision, the route
  table with its roles, and where a visit ends after the redirects.
- **Request form** (`request_form.dfy`): field edits, the browser's check of
  the required inputs, the submission payload, and what a submit does on
  success and on failure. The class `RequestScreen` holds the form and the
  notification; its invariant is that the disabled "Job Card ID" field stays
  empty.

Server calls are not made by the model. Each handler that awaits one is
split at the `await`, and the server's reply is an input. The time
zone and date parsing are a `Calendar` parameter. The clock reading is a
`Moment` parameter, or the `stamp` string for the submission time.

## Model

| member | source | states |
|---|---|---|
| JsValues.Or | src/components/Dashboard.jsx:480 | `a \|\| b` is `a` when `a` is truthy and `b` otherwise |
| JsValues.DateOf | src/components/Dashboard.jsx:472 | `new Date(undefined)` is an Invalid Date |
| JsValues.BlankIffAllWhitespace | src/components/DepartmentalApprovals.jsx:202 | `!reason.trim()` holds exactly when every character of the reason is JavaScript whitespace |
| JsValues.NumberOf | src/components/Dashboard.jsx:694 | `Number` of a blank string is 0 |
| JsValues.NumberOfDecimal | src/components/Dashboard.jsx:694 | `Number` reads back every integer from its decimal text |
| Lists.Filter | src/components/Dashboard.jsx:117 | `filter` keeps exactly the elements that pass, each as often as it occurs |
| Lists.FilterAppend | src/components/Dashboard.jsx:117 | filtering two lists laid end to end gives the two filtered lists laid end to end, so `filter` keeps the order of the elements it keeps |
| Lists.FilterSnoc | src/components/Dashboard.jsx:117 | `filter` of an empty list is empty; an element appended to a list is appended to the result exactly when it passes |
| Lists.CountSnoc | src/components/Dashboard.jsx:117 | `filter(...).length` of an empty list is 0; an appended element adds 1 exactly when it passes |
| Lists.Distinct | src/components/Dashboard.jsx:461 | `Array.from(new Set(xs))` has no duplicates and the same members as `xs` |
| JobCards.OfDepartment | src/components/Dashboard.jsx:464 | the department filter keeps exactly the cards of that department, each as often as it occurs in the list |
| JobCards.OfDepartmentSnoc | src/components/Dashboard.jsx:464 | the department filter keeps list order: an appended card is appended to the result exactly when it is of that department |
| JobCards.WithoutId | src/components/DepartmentalApprovals.jsx:188 | every entry with the id is removed, and every other entry keeps its multiplicity; the entries removed are exactly those counted as carrying the id |
| JobCards.WithoutIdSnoc | src/components/AccountsPanel.jsx:122 | removal keeps list order: an appended entry stays, last, exactly when it does not carry the id |
| JobCards.WithoutAbsentId | src/components/DepartmentalApprovals.jsx:188 | removing an id that no entry carries leaves the list unchanged |
| JobCards.SubmitMoment | src/components/DepartmentHistory.jsx:55 | a card is dated by `dateSubmitted`, or by `date` when `dateSubmitted` is falsy |
| JobCards.SubmittedThisWeek | src/components/DepartmentHistory.jsx:51-57 | the week count is 0 for no cards and never exceeds the number of cards |
| JobCards.WeekCountSnoc | src/components/DepartmentHistory.jsx:51-57 | an appended card adds 1 to the week count exactly when its submission date lies between the week start and now |
| JobCards.SubmittedThisMonth | src/components/DepartmentHistory.jsx:58-62 | the month count is 0 for no cards and never exceeds the number of cards |
| JobCards.MonthCountSnoc | src/components/DepartmentHistory.jsx:58-62 | an appended card adds 1 to the month count exactly when it was submitted in the month and year of now |
| JobCards.SubmittedThisYear | src/components/DepartmentHistory.jsx:63-67 | the year count is 0 for no cards and never exceeds the number of cards |
| JobCards.YearCountSnoc | src/components/DepartmentHistory.jsx:63-67 | an appended card adds 1 to the year count exactly when it was submitted in the year of now |
| JobCards.MonthWithinYear | src/components/DepartmentHistory.jsx:58-67 | the month count never exceeds the year count |
| JobCards.WeekWindowOnSunday | src/components/DepartmentHistory.jsx:53-56 | the week window keeps the current time of day, so on a Sunday it holds only the instant `now` |
| JobCards.RoundPercent | src/components/Dashboard.jsx:484 | the result is the integer nearest to 100·part/whole, with halves rounded up; it lies in 0..100 when part ≤ whole; it is 0 for part 0 and 100 for part = whole |
| Dashboard.StatusCountsWithinTotal | src/components/Dashboard.jsx:116-121 | pending, assigned and closed/completed are disjoint, so their counts sum to at most `totalJobs` |
| Dashboard.SuccessRate | src/components/Dashboard.jsx:449 | the rate is undefined (NaN) exactly for an empty list; otherwise it is `RoundPercent(assigned, total)`, so it lies in 0..100 and is 0 when nothing is assigned |
| Dashboard.AllDepartments | src/components/Dashboard.jsx:461 | every truthy department that occurs is listed once, and nothing else is listed |
| Dashboard.PendingRequests | src/components/Dashboard.jsx:462 | a card is a row exactly when it is pending and, with a selector other than "all", of that department; each row occurs as often as in the list; there are at most `pendingApprovals` rows |
| Dashboard.PendingRequestsSnoc | src/components/Dashboard.jsx:462 | the table keeps list order: an appended card is appended to the table exactly when it passes the status and department test |
| Dashboard.PendingRequestsAll | src/components/Dashboard.jsx:462 | with the selector on "all", the table is exactly the pending cards, in order |
| Dashboard.ApprovedToday | src/components/Dashboard.jsx:470-478 | 0 for no cards, and at most the approved count |
| Dashboard.ApprovedTodaySnoc | src/components/Dashboard.jsx:470-478 | an appended card adds 1 exactly when it is approved and its truthy `dateApproved` falls on today's date |
| Dashboard.DeptThisWeek | src/components/Dashboard.jsx:479-482 | 0 for no cards; at most the department's card count |
| Dashboard.DeptThisWeekSnoc | src/components/Dashboard.jsx:479-482 | an appended card adds 1 exactly when it is of the user's department and was submitted in the week window |
| Dashboard.Progress | src/components/Dashboard.jsx:483-484 | 0 for a department without cards; otherwise the rounded share of approved, closed or completed cards; always in 0..100 |
| Dashboard.ProcessedToday | src/components/Dashboard.jsx:681-689 | 0 for no cards, and at most the processed count |
| Dashboard.ProcessedTodaySnoc | src/components/Dashboard.jsx:681-689 | an appended card adds 1 exactly when it is processed and its truthy `dateProcessed` falls on today's date |
| Dashboard.AmountOf | src/components/Dashboard.jsx:691-696 | a card contributes, in order of priority, a numeric `amount`, a numeric `hrs`, a numeric-string `hrs`, or 0 |
| Dashboard.TotalAmountAppend | src/components/Dashboard.jsx:691-696 | the total of two lists laid end to end is the sum of their totals |
| Dashboard.UnpricedCardAddsNothing | src/components/Dashboard.jsx:691-696 | a card with no usable amount leaves the total unchanged, wherever it stands |
| Dashboard.CompletionRate | src/components/Dashboard.jsx:698-699 | 0 when nothing is processed or approved; otherwise `RoundPercent(processed, processed + approved)`, which is 100 when nothing awaits disbursement; always in 0..100 |
| DepartmentHistory.StoredCards | src/components/DepartmentHistory.jsx:44 | the page keeps exactly the fetched cards of the user's department, each as often as fetched |
| DepartmentHistory.StoredCardsSnoc | src/components/DepartmentHistory.jsx:44 | the stored list keeps fetch order: an appended card is stored last exactly when it is of the user's department |
| DepartmentHistory.HistoryStats | src/components/DepartmentHistory.jsx:48-67 | total is the card count; completed, pending, thisWeek, thisMonth and thisYear are the counts of their tests; completed + pending ≤ total; thisWeek ≤ total; thisMonth ≤ thisYear ≤ total |
| DepartmentHistory.Render | src/components/DepartmentHistory.jsx:186 | the rows are the stored cards and the counts are over the same cards |
| DepartmentHistory.SelectorsIgnored | src/components/DepartmentHistory.jsx:36-37 | the status and date-range selectors never change what the page shows |
| Notifications.ErrorMessage | src/components/AccountsPanel.jsx:136 | the server's message when it is a non-empty string, else the fallback text |
| DepartmentalApprovals.InitialQueue | src/components/DepartmentalApprovals.jsx:129-135 | the queue holds exactly the pending cards of the user's department, as often as in the source list |
| DepartmentalApprovals.InitialQueueSnoc | src/components/DepartmentalApprovals.jsx:129-135 | the queue keeps source order: an appended card joins the end of the queue exactly when it is a pending card of the department |
| DepartmentalApprovals.ReplaceById | src/components/DepartmentalApprovals.jsx:171 | same length; entries with the edited id become the edit, and the others are unchanged |
| DepartmentalApprovals.ReplaceByIdIdempotent | src/components/DepartmentalApprovals.jsx:171 | saving the same edit twice is the same as saving it once |
| DepartmentalApprovals.RemoveAfterEdit | src/components/DepartmentalApprovals.jsx:171 | approving or rejecting after an edit removes the same entries as without the edit |
| DepartmentalApprovals.Spread | src/components/DepartmentalApprovals.jsx:155 | spreading `null` gives the empty object |
| DepartmentalApprovals.AfterViewDetails | src/components/DepartmentalApprovals.jsx:137-143 | the card becomes both the selection and the draft; the dialog opens; reject mode and edit mode are cleared |
| DepartmentalApprovals.AfterCloseDialog | src/components/DepartmentalApprovals.jsx:145-150 | the dialog closes; the reason is cleared; edit mode ends; the draft is dropped; the selection and reject mode are kept |
| DepartmentalApprovals.AfterEditToggle | src/components/DepartmentalApprovals.jsx:152-157 | edit mode flips; entering it drafts a fresh copy of the selection |
| DepartmentalApprovals.AfterEditChange | src/components/DepartmentalApprovals.jsx:159-164 | only the named field of the draft changes |
| DepartmentalApprovals.AfterSaveEdit | src/components/DepartmentalApprovals.jsx:166-181 | the queue keeps its length; entries with the draft's id become the draft and the others are unchanged; the selection becomes the draft; edit mode ends; a success notification is shown |
| DepartmentalApprovals.AfterApprove | src/components/DepartmentalApprovals.jsx:183-198 | the queue becomes `WithoutId` of the selected id, so exactly those entries leave it; the dialog is closed and reset; the approval notification is shown; the selection and reject mode are kept |
| DepartmentalApprovals.AfterReject | src/components/DepartmentalApprovals.jsx:200-221 | the first press only enters reject mode; a blank reason changes nothing; a non-blank reason removes the selected id, closes and resets the dialog and shows the rejection notification, keeping the selection and reject mode |
| DepartmentalApprovals.RejectNeedsReason | src/components/DepartmentalApprovals.jsx:201-204 | two presses with a whitespace-only reason leave the queue as it was |
| DepartmentalApprovals.RejectRemovesLikeApprove | src/components/DepartmentalApprovals.jsx:206-209 | a completed reject leaves the same queue as approve |
| DepartmentalApprovals.ApprovalsScreen.constructor | src/components/DepartmentalApprovals.jsx:129-135 | the screen mounts with the initial queue and every other field at its initial value |
| DepartmentalApprovals.ApprovalsScreen.ViewDetails | src/components/DepartmentalApprovals.jsx:137-143 | the new state is `AfterViewDetails` of the old one |
| DepartmentalApprovals.ApprovalsScreen.CloseDialog | src/components/DepartmentalApprovals.jsx:145-150 | the new state is `AfterCloseDialog` of the old one |
| DepartmentalApprovals.ApprovalsScreen.EditToggle | src/components/DepartmentalApprovals.jsx:152-157 | the new state is `AfterEditToggle` of the old one |
| DepartmentalApprovals.ApprovalsScreen.EditChange | src/components/DepartmentalApprovals.jsx:159-164 | the new state is `AfterEditChange` of the old one |
| DepartmentalApprovals.ApprovalsScreen.SaveEdit | src/components/DepartmentalApprovals.jsx:166-181 | the new state is `AfterSaveEdit` of the old one |
| DepartmentalApprovals.ApprovalsScreen.Approve | src/components/DepartmentalApprovals.jsx:183-198 | the new state is `AfterApprove` of the old one |
| DepartmentalApprovals.ApprovalsScreen.Reject | src/components/DepartmentalApprovals.jsx:200-221 | the new state is `AfterReject` of the old one |
| DepartmentalApprovals.ApprovalsScreen.ChangeRejectReason | src/components/DepartmentalApprovals.jsx:376 | only the reason changes |
| DepartmentalApprovals.ApprovalsScreen.CancelReject | src/components/DepartmentalApprovals.jsx:380 | only reject mode is left |
| DepartmentalApprovals.ApprovalsScreen.CloseNotification | src/components/DepartmentalApprovals.jsx:223-225 | only the notification's `open` flag is cleared |
| AccountsPanel.ApplyFilter | src/components/AccountsPanel.jsx:164-169 | the named report-filter field takes the value, and every other field keeps its own |
| AccountsPanel.ApplyFilterIdempotent | src/components/AccountsPanel.jsx:164-169 | applying the same filter change twice is the same as applying it once |
| AccountsPanel.ToggleDepartment | src/components/AccountsPanel.jsx:583-596 | the department is selected afterwards exactly when it was not before; other departments are unaffected; an unselected department is appended |
| AccountsPanel.ToggleTwice | src/components/AccountsPanel.jsx:583-596 | two clicks restore the set of selected departments, and the exact list when the department was unselected |
| AccountsPanel.MoveKeepsTotal | src/components/AccountsPanel.jsx:121-123 | when the id occurred once among the pending cards, pending + disbursed keeps its combined length |
| AccountsPanel.AfterFetch | src/components/AccountsPanel.jsx:67-96 | loading ends; a successful fetch installs the three lists; a failed one installs the sample lists and shows the "sample data" warning |
| AccountsPanel.ReceiptDefault | src/components/AccountsPanel.jsx:105 | the card's own `receiptSubmitted` when it is truthy, and `false` otherwise |
| AccountsPanel.AfterViewDetails | src/components/AccountsPanel.jsx:102-106 | the card is selected; the dialog opens; the checkbox takes the card's truthy flag, else false; nothing else changes |
| AccountsPanel.ProcessCallOf | src/components/AccountsPanel.jsx:112-118 | no call is made without a selection; otherwise it posts the selected id with the checkbox value |
| AccountsPanel.AfterProcessFunds | src/components/AccountsPanel.jsx:112-140 | without a selection nothing changes; on success the id leaves the pending list, the record heads the disbursed list, the dialog closes, the success message shows and nothing else changes; on failure only the error notification changes |
| AccountsPanel.FailedProcessKeepsLists | src/components/AccountsPanel.jsx:132-139 | a failed call keeps all three lists and shows a non-empty error |
| AccountsPanel.AfterGenerateReport | src/components/AccountsPanel.jsx:150-162 | a success notification is shown, the report dialog closes, and nothing else changes |
| AccountsPanel.AccountsScreen.constructor | src/components/AccountsPanel.jsx:43-65 | the panel mounts loading, with empty lists and the initial filters |
| AccountsPanel.AccountsScreen.FinishFetch | src/components/AccountsPanel.jsx:67-96 | the new state is `AfterFetch` of the old one |
| AccountsPanel.AccountsScreen.TabChange | src/components/AccountsPanel.jsx:98-100 | only the tab changes |
| AccountsPanel.AccountsScreen.ViewDetails | src/components/AccountsPanel.jsx:102-106 | the new state is `AfterViewDetails` of the old one |
| AccountsPanel.AccountsScreen.CloseDialog | src/components/AccountsPanel.jsx:108-110 | only the dialog closes |
| AccountsPanel.AccountsScreen.ProcessFunds | src/components/AccountsPanel.jsx:112-140 | the call sent is `ProcessCallOf` of the old state, and the new state is `AfterProcessFunds` of the old one |
| AccountsPanel.AccountsScreen.OpenReportDialog | src/components/AccountsPanel.jsx:142-144 | only the report dialog opens |
| AccountsPanel.AccountsScreen.CloseReportDialog | src/components/AccountsPanel.jsx:146-148 | only the report dialog closes |
| AccountsPanel.AccountsScreen.GenerateReport | src/components/AccountsPanel.jsx:150-162 | the new state is `AfterGenerateReport` of the old one |
| AccountsPanel.AccountsScreen.FilterChange | src/components/AccountsPanel.jsx:164-169 | only the report filters change, as `ApplyFilter` gives |
| AccountsPanel.AccountsScreen.CloseNotification | src/components/AccountsPanel.jsx:171-173 | only the notification's `open` flag is cleared |
| AccountsPanel.AccountsScreen.SetReceiptSubmitted | src/components/AccountsPanel.jsx:485 | only the checkbox changes |
| AccountsPanel.AccountsScreen.ToggleDepartmentChip | src/components/AccountsPanel.jsx:583-596 | only the selected departments change, as `ToggleDepartment` gives |
| Routes.Guard | src/App.jsx:100-112 | signed out means a redirect to /login; signed in with a role outside a non-empty list means a redirect to /dashboard; otherwise the page is allowed |
| Routes.GuardMonotone | src/App.jsx:107 | widening a non-empty role list, to any list holding each of its roles, never turns an admitted user away |
| Routes.GuardNotMonotoneFromEmpty | src/App.jsx:107 | the same fails from the empty role list, which admits every signed-in user |
| Routes.Visit | src/App.jsx:41-90 | an unknown path matches no route; the only redirects lead to /login or /dashboard |
| Routes.RoleGates | src/App.jsx:50-89 | /request renders only for "user"; /approvals and /department-history only for "department_head"; /accounts only for "accounts"; each also requires being signed in |
| Routes.NavigationSettles | src/App.jsx:41-112 | from any routed path, at most two redirects end on a page: the login page when signed out, otherwise the requested page or the dashboard |
| RequestForm.EmptyForm | src/components/RequestForm.jsx:25-41 | the form has exactly the fifteen fields, all empty strings |
| RequestForm.ChangeField | src/components/RequestForm.jsx:48-53 | only the named field changes |
| RequestForm.ChangeFieldUndo | src/components/RequestForm.jsx:48-53 | typing a field's previous text back restores the form |
| RequestForm.DisplayedJobCardId | src/components/RequestForm.jsx:114 | the chip shows the typed id, or "2950" while it is empty |
| RequestForm.SubmissionPayload | src/components/RequestForm.jsx:61-66 | the form's fields, with `status` "pending", `dateSubmitted` set to the stamp and `requestedBy` set to the username overriding any same-named field |
| RequestForm.SubmittedCardIsPending | src/components/RequestForm.jsx:61-66 | a submitted card is pending, and the dashboards date it by its stamp |
| RequestForm.DisplayedIdIsNotSubmitted | src/components/RequestForm.jsx:114 | whenever `jobCardId` is empty the chip shows "2950", while the posted card carries an empty `jobCardId` |
| RequestForm.EmptyFormHasNoJobCardId | src/components/RequestForm.jsx:25-41 | the initial and reset form has an empty `jobCardId` |
| RequestForm.ChangeKeepsJobCardId | src/components/RequestForm.jsx:273-280 | a change event from any enabled input leaves `jobCardId` as it was, since its own input is disabled |
| RequestForm.EmptyFormIsBlocked | src/components/RequestForm.jsx:122-127 | the browser refuses to submit an empty form, because the required "date" input is empty |
| RequestForm.AfterBeginSubmit | src/components/RequestForm.jsx:55-57 | with every required input filled, the notification is hidden before the request is sent; otherwise the submit is blocked and nothing changes; the form is kept either way |
| RequestForm.AfterFinishSubmit | src/components/RequestForm.jsx:68-100 | success clears all fifteen fields and shows the success message; failure keeps the form and shows the server's message or "Failed to submit job card." |
| RequestForm.FailedSubmitKeepsPayload | src/components/RequestForm.jsx:93-100 | after a failed submit, submitting again posts the same card |
| RequestForm.RequestScreen.constructor | src/components/RequestForm.jsx:25-47 | the form mounts empty with the notification hidden and an empty `jobCardId` |
| RequestForm.RequestScreen.DetailsChange | src/components/RequestForm.jsx:48-53 | only the named field of the form changes, and `jobCardId` stays empty |
| RequestForm.RequestScreen.BeginSubmit | src/components/RequestForm.jsx:55-66 | a request is made exactly when every required input is filled; it posts `SubmissionPayload` of the form to "/api/requests" with an empty `jobCardId`; the new state is `AfterBeginSubmit` of the old one |
| RequestForm.RequestScreen.FinishSubmit | src/components/RequestForm.jsx:68-100 | the new state is `AfterFinishSubmit` of the old one |
| RequestForm.RequestScreen.CloseNotification | src/components/RequestForm.jsx:103-105 | only the notification's `open` flag is cleared |

## Left out

- Routes.GuardMonotone: is proved only for non-empty role lists. An empty list admits every signed-in user, so widening it can turn a user away (`Routes.GuardNotMonotoneFromEmpty` proves this).
- DepartmentalApprovals.AfterApprove: requires a selected card, and so does `AfterReject` in reject mode with a reason. Without one, the source dereferences `selectedRequest.id` on `null` and throws, which the model does not represent.
- DepartmentalApprovals.AfterSaveEdit: requires a draft. Saving with a `null` draft throws in the source.
- Fixed-point and floating-point arithmetic: numbers are unbounded integers. `Math.round` of a percentage is computed exactly (`RoundPercent`), so a ratio that floating point puts just below one half can round differently. Card amounts and `hrs` are integers.
- JsValues.NumberOf: reads only optionally signed integers, and so does `AmountOf`. Decimal fractions, exponents, hexadecimal and `Infinity` give NaN (`None`) in the model.
- Date parsing and time zones: `new Date(...)` is the `Calendar` parameter, and the current time is a `Moment` parameter. The week window start is `now` minus whole days, so a daylight-saving change within the week is not modelled. The department history reads the clock once per card, while the model uses one `now` for all of them.
- Fetching and I/O: the list fetches of every screen, the process-funds and submit requests, `console.log`, and the dashboard's initial fetch. The server's reply is an input of the handler that awaits it. Only the Axios "message" field of an error is used; a message that is not a string is treated as absent.
- Fixtures: the approval queue's sample cards (`mockJobCardRequests`, src/components/DepartmentalApprovals.jsx:44-112) are the `source` parameter. The accounts panel's sample lists (`src/data`) are the `Fallback` parameter. Their contents are not reproduced.
- Browser form validation: only the four `required` text inputs (date, to be signed off by, client brief, notes) block a submit, and only when empty. The department `Select` sits in a `required` form control, but whether that stops the submit depends on the UI library's hidden input, so the model lets a form with no department through. Input `type` constraints (the date format) are not modelled.
- Asynchronous interleaving: a handler that awaits a reply may run with state that went stale meanwhile. Each `Begin…`/`Finish…` pair is modelled as running back to back.
- The authentication context (`src/context/AuthContext`) is not part of this model. `isAuthenticated` and the stored user are the `Session` input.
- Routing: paths are matched by exact string comparison. Router features such as parameters, nesting and `replace` history entries are not modelled.
- The login page, the navigation bar, the personal job-card history page, and the backend servers hold no workflow logic and are not part of this model.
- The dashboard's greeting, clock, fixed metric constants and all rendering are not modelled.
