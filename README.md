# FocusPilot core, modelled in Dafny

FocusPilot is a single-page personal assistant for tasks, bills, notes and
receipts. Each signed-in user has one JSON document in browser storage. The
document holds six collections and a settings object. This project models:

- the document store and its partial updates;
- the mock identity gate that picks the partition;
- the rules the views apply to the document: the derived overdue status of
  bills, reminders, quick-add dispatch, the task order and toggle, the
  agenda grouping, the dashboard summary, and receipt, manual-bill and CSV
  construction.

Layout, one module per file:

- `common.dfy`: `Option` and `Result`.
- `js.dfy`: the JavaScript semantics the code relies on.
  - JSON values, with records as `map<string, Value>`, so object spread is
    right-biased map union.
  - Truthiness, `||`, property access that throws on `null`/`undefined`,
    `String(v)`, `split`, `join`, `startsWith` and string comparison.
  - A `Platform` bundles the host functions that are not modelled in detail:
    date parsing and formatting, number formatting and `parseFloat`.
- `aggregates.dfy`, `sorting.dfy`: `filter`/`reduce` and an in-place sort by
  a total preorder, with their laws.
- `types.dfy`: the string unions, as datatypes with parse/print round
  trips, and the interfaces, as schema predicates over records.
- `auth.dfy`: the user list and the session slot.
- `store.dfy`: the document, the per-user partition key, and the store
  class over a key-to-blob map.
- `bills.dfy`, `notifications.dfy`, `quick_add.dfy`, `tasks.dfy`,
  `calendar.dfy`, `dashboard.dfy`, `receipts.dfy`: one module per view or
  service.

Time is integer milliseconds. Fresh ids, the current instant and its ISO
text, and the interpreter's answer are parameters.

## Model

| member | source | states |
|---|---|---|
| Types.ParsePriority | types.ts:4 | a priority text parses exactly when it is one of P0..P3, and parsing inverts the name |
| Types.ParseStatus | types.ts:5 | task status is exactly todo, in_progress or done; parse inverts the name |
| Types.ParseBillStatus | types.ts:6 | bill status is exactly scheduled, paid or overdue; parse inverts the name |
| Types.ParseRecurrence | types.ts:31 | recurrence is exactly none, monthly, biweekly or custom; parse inverts the name |
| Types.ParseRole | types.ts:74-78 | a chat role is exactly user or model |
| Types.ParseCommandType | types.ts:82-88 | a command type is one of the ten action names; parse inverts the name |
| Types.NamesAreDistinct | types.ts:4-6 | distinct constructors of each union have distinct names |
| Types.EntitiesAreBaseItems | types.ts:8-64 | every task, bill, note and receipt carries id, createdAt and updatedAt |
| Js.DatePartSpec | components/views/CalendarView.tsx:17 | `split('T')[0]` is the text before the first 'T', or the whole text |
| Js.DatePartOfInstant | components/views/Dashboard.tsx:18 | the date part of `d + "T" + t` is `d` when `d` has no 'T' |
| Js.LexLeTotalOrder | components/views/CalendarView.tsx:32 | `<=` on strings is reflexive, transitive, antisymmetric and total |
| Js.JoinSplit | components/views/ReceiptsView.tsx:102 | joining the pieces of a split restores the text |
| Js.SplitJoin | components/views/ReceiptsView.tsx:102-104 | splitting a join of separator-free pieces gives back the pieces |
| Auth.FirstWithEmail | services/authService.ts:21 | the index of the first user with the email, none exactly when no user has it |
| Auth.GoogleUser | services/authService.ts:34-39 | the Google user has the demonstration email and an id prefixed "google_" |
| Auth.RegisteredUserIsFound | services/authService.ts:20-54 | after registering an unused email, looking it up finds the new user |
| Auth.AppendKeepsDistinct | services/authService.ts:48-53 | appending a user with an unused email keeps emails pairwise distinct |
| Auth.FirstMatchIsUnique | services/authService.ts:21 | among distinct emails, the user found is the only match |
| Auth.AuthService.GetCurrentUser | services/authService.ts:13-16 | returns the session user, or none |
| Auth.AuthService.Login | services/authService.ts:18-28 | an unknown email fails with "Invalid credentials..." and leaves the session; otherwise the session is the first user with that email; the password plays no part |
| Auth.AuthService.LoginWithGoogle | services/authService.ts:31-43 | the session becomes the fixed Google user; the user list is unchanged |
| Auth.AuthService.Register | services/authService.ts:45-58 | a taken email fails with "Email already registered." and changes nothing; otherwise exactly one user is appended and signed in, and emails stay distinct |
| Auth.AuthService.Logout | services/authService.ts:60-63 | the session is cleared and the users stay |
| Store.WithItems | services/dataStore.ts:106 | assigning one collection leaves the other five and the settings |
| Store.DefaultSettings | services/dataStore.ts:16-22 | the default settings are well-formed, reminders off, currency USD |
| Store.InitialDocument | services/dataStore.ts:24-32 | the initial document has every collection empty and well-formed settings |
| Store.UserKeyInjective | services/dataStore.ts:35-38 | two users share a partition key exactly when they share an id |
| Store.Stored | services/dataStore.ts:62-68 | saving without a key changes nothing; with a key it writes that entry and keeps every other |
| Store.SavedIsFetched | services/dataStore.ts:55-65 | a saved document is what the next read of that partition returns |
| Store.SaveIsolatesPartitions | services/dataStore.ts:62-65 | a save does not change another partition's read |
| Store.AddToSpec | services/dataStore.ts:87-91 | the new item is first, the old items follow in order, nothing else changes |
| Store.IndexOfId | services/dataStore.ts:96 | the first index whose id matches; none exactly when no record matches |
| Store.Merged | services/dataStore.ts:98 | patch keys win, other old keys stay, and updatedAt is the fresh stamp |
| Store.UpdateInSpec | services/dataStore.ts:96-100 | an absent id gives no update; otherwise only the first match changes, to the merge, and the length is unchanged |
| Store.WithoutId | services/dataStore.ts:106 | no survivor has the id, and every survivor is an old record |
| Store.WithoutIdAppend | services/dataStore.ts:106 | deletion distributes over concatenation, so survivors keep their order |
| Store.WithoutIdKeeps | services/dataStore.ts:106 | every record with another id survives |
| Store.WithoutAbsentId | services/dataStore.ts:103-108 | deleting an absent id leaves the collection as it was |
| Store.RemovesExactlyOne | services/dataStore.ts:106 | with one record carrying the id, deletion removes exactly that record |
| Store.MergeSettings | services/dataStore.ts:110-114 | patch keys overwrite, other settings keys stay, the collections are untouched |
| Store.OnboardingTask | services/dataStore.ts:75-83 | the seeded task is a well-formed P1 todo task titled "Explore FocusPilot features" tagged onboarding |
| Store.SeededSpec | services/dataStore.ts:70-85 | seeding applies exactly when the task list is empty and adds exactly that one task |
| Store.DataStore.GetUserKey | services/dataStore.ts:35-38 | the key is the prefix and the session user's id, none without a session |
| Store.DataStore.Get | services/dataStore.ts:48-60 | without a key, with nothing stored, or with unparseable text the initial document; otherwise the stored one |
| Store.DataStore.Save | services/dataStore.ts:62-68 | the storage afterwards is `Stored` of the old storage |
| Store.DataStore.SeedSampleData | services/dataStore.ts:70-85 | the onboarding task is written only onto an empty task list |
| Store.DataStore.Init | services/dataStore.ts:40-46 | a signed-in user's vacant partition gets the initial document, then seeding; anything else is left alone |
| Store.DataStore.AddItem | services/dataStore.ts:87-91 | the partition afterwards holds the fetched document with the item prepended |
| Store.DataStore.UpdateItem | services/dataStore.ts:93-101 | no save when the id is absent; otherwise the merged document is saved |
| Store.DataStore.DeleteItem | services/dataStore.ts:103-108 | the partition afterwards holds the document without the id's records |
| Store.DataStore.UpdateSettings | services/dataStore.ts:110-114 | the partition afterwards holds the document with merged settings |
| Bills.DeriveAll | components/views/BillsView.tsx:19-27 | one derived bill per stored bill, position by position |
| Bills.DeriveSpec | components/views/BillsView.tsx:19-27 | only the status may change; a paid bill is returned as is; the status is overdue iff past due and unsnoozed (or stored overdue); well-formedness is kept |
| Bills.OverdueIffPastDue | components/views/BillsView.tsx:20-23 | an unpaid bill not stored overdue is shown overdue iff its due instant, at midnight without a due time, is valid and strictly before now and no snooze runs |
| Bills.DueLeIsTotalPreorder | components/views/BillsView.tsx:29 | ordering by due-date text is a total preorder |
| Bills.LoadBills | components/views/BillsView.tsx:14-30 | the shown list is a permutation of the derived stored bills, ordered by due date |
| Bills.ShownAreDerived | components/views/BillsView.tsx:19-29 | every shown bill derives from a stored one and every stored one is shown |
| Bills.TotalDueIsStoredTotal | components/views/BillsView.tsx:93 | the unpaid total of the shown list, a number or not, equals that of the stored bills |
| Bills.MissingAmountIsNaN | components/views/BillsView.tsx:93 | an unpaid bill without an amount makes the total not a number; a null amount adds zero |
| Bills.ActionsOffered | components/views/BillsView.tsx:137-153 | Paid is offered iff the bill is unpaid; Snooze iff it is shown overdue |
| Bills.MarkPaidFields | components/views/BillsView.tsx:38-43 | status paid, paidAt the payment time, updatedAt the stamp, all else kept |
| Bills.MarkPaidNeverOverdue | components/views/BillsView.tsx:23-43 | a bill marked paid is never shown overdue, at any later time |
| Bills.MarkPaidKeepsBill | components/views/BillsView.tsx:38-43 | marking a well-formed bill paid keeps it well-formed |
| Bills.MarkPaidTwice | components/views/BillsView.tsx:38-43 | paying twice equals paying once with the later payment time |
| Bills.SnoozeFields | components/views/BillsView.tsx:50-55 | snoozedUntil is now plus four hours as ISO text, status scheduled, all else kept |
| Bills.SnoozeSilences | components/views/BillsView.tsx:21-55 | a snoozed bill is not shown overdue for four hours; afterwards it is iff its due instant has passed |
| Bills.SnoozeKeepsBill | components/views/BillsView.tsx:50-55 | snoozing a well-formed bill keeps it well-formed |
| Bills.UtilityBillScenario | components/views/BillsView.tsx:19-55 | a bill due 2024-01-10 is overdue the next day, scheduled three hours after a snooze, overdue five hours after |
| Bills.MarkPaid | components/views/BillsView.tsx:38-46 | the stored bill with that id is merged with the paid patch, or nothing changes |
| Bills.SnoozeBill | components/views/BillsView.tsx:48-58 | the stored bill with that id is merged with the snooze patch, or nothing changes |
| Bills.DeleteBill | components/views/BillsView.tsx:60-64 | the bills with that id are removed |
| Notifications.RemindersAppend | services/notificationService.ts:31-46 | the alerts of two bill lists in a row are the first list's alerts followed by the second's |
| Notifications.RemindersSpec | services/notificationService.ts:31-46 | one alert per firing bill, in bill order: a single bill raises its alert exactly when it fires, the alerts of a split bill list are the two halves' alerts joined, and so their number is the number of firing bills |
| Notifications.SilentBills | services/notificationService.ts:32-53 | paid, snoozed and upcoming (next 24 h) bills raise nothing |
| Notifications.KeepsFiring | services/notificationService.ts:40-46 | a firing bill fires again at every later poll |
| Notifications.SameInstantAsView | services/notificationService.ts:34-40 | with a due time, a reminder fires exactly when the bills view shows the bill overdue |
| Notifications.MorningGap | services/notificationService.ts:34 | without a due time, between midnight and 09:00 the bill is shown overdue but raises no alert |
| Notifications.CheckReminders | services/notificationService.ts:24-55 | no alerts when reminders are off; otherwise exactly the alerts for the current bills; the store is not modified |
| Notifications.Displayed | services/notificationService.ts:17-21 | alerts are shown only under a granted permission |
| Notifications.RequestPermission | services/notificationService.ts:6-14 | granted iff supported and answered "granted"; only then are reminders switched on in settings |
| Notifications.GrantEnablesReminders | services/notificationService.ts:9-10 | after a grant the stored settings have reminders on and the bills are unchanged |
| QuickAdd.TaskFromCommandSpec | components/QuickAdd.tsx:42 | a task is made iff the payload is not null/undefined; the keys are the payload's and the six defaults; every payload key wins; "New Task", todo, P1, the id and now (created and updated) fill the keys the payload lacks |
| QuickAdd.NullTitleKept | components/QuickAdd.tsx:42 | a null title or priority in the payload is kept, so the record is not a well-formed task |
| QuickAdd.BillFromCommandSpec | components/QuickAdd.tsx:45 | the keys are the payload's plus id, status, reminderCadence, currency, createdAt and updatedAt; every payload key wins; scheduled, ["3d","1d"], USD, the id and the timestamp `now` fill the rest |
| QuickAdd.NoteFromCommandSpec | components/QuickAdd.tsx:48 | a note is made iff the payload is not null/undefined; content is notes, else title; tags are empty; only the five note keys, so nothing else of the payload is copied; with string content it is well-formed |
| QuickAdd.DispatchSpec | components/QuickAdd.tsx:35-50 | each create type adds one record to its collection (task and note throw on a missing payload); every other type is ignored |
| QuickAdd.CallBankExample | components/QuickAdd.tsx:42 | "Call bank" becomes a todo P1 task with that title and the fresh id |
| QuickAdd.ReactSpec | components/QuickAdd.tsx:15-33 | the input clears exactly when no message is shown; a record is added only without a clarification question; failures show the fixed message |
| QuickAdd.CommandBar.SetInput | components/QuickAdd.tsx:59-71 | typing or a transcript replaces the input only |
| QuickAdd.CommandBar.HandleCommand | components/QuickAdd.tsx:15-33 | blank input does nothing; otherwise the reaction's message and input are set, loading ends, and the store changes only by the one added record |
| QuickAdd.CommandBar.ExecuteAction | components/QuickAdd.tsx:35-52 | the store gains exactly the dispatched record, or is unchanged |
| Tasks.TaskLeIsTotalPreorder | components/views/TasksView.tsx:15-19 | the comparator's order is a total preorder |
| Tasks.SortedTasksShape | components/views/TasksView.tsx:16-18 | sorted, every open task precedes every done one and each group is by dueAt text |
| Tasks.LoadTasks | components/views/TasksView.tsx:13-22 | the shown list is a permutation of the stored tasks, sorted |
| Tasks.ToggleSpec | components/views/TasksView.tsx:26-32 | done becomes todo, anything else done; completedAt is the time iff now done, undefined otherwise; all else kept |
| Tasks.ToggleTwice | components/views/TasksView.tsx:27-31 | toggling twice restores whether the task is done |
| Tasks.ToggleKeepsTask | components/views/TasksView.tsx:26-32 | toggling keeps a well-formed task well-formed |
| Tasks.ToggleTask | components/views/TasksView.tsx:26-35 | the stored task with that id is merged with the toggle patch, or nothing changes |
| Tasks.DeleteTask | components/views/TasksView.tsx:37-41 | the tasks with that id are removed |
| Tasks.ActiveCountSpec | components/views/TasksView.tsx:50 | the count does not depend on display order, and open plus done is all tasks |
| Calendar.GroupedSpec | components/views/CalendarView.tsx:15-23 | each date's group is what it held plus that date's items in order; a date is present iff it has items |
| Calendar.SelectSpec | components/views/CalendarView.tsx:15-23 | a group holds exactly the tagged items filed under its date |
| Calendar.AgendaSpec | components/views/CalendarView.tsx:22-23 | each group is its tasks in store order, then its bills in store order; no date is empty |
| Calendar.AddAll | components/views/CalendarView.tsx:15-23 | the loop builds the grouping and the dates in first-seen order, without repeats |
| Calendar.StrictlyAscending | components/views/CalendarView.tsx:32 | sorted distinct dates are strictly ascending |
| Calendar.LoadAgenda | components/views/CalendarView.tsx:11-32 | the grouping is that of the current document; the dates are its keys, strictly ascending |
| Dashboard.Focus | components/views/Dashboard.tsx:57 | at most five due tasks, a prefix of the list |
| Dashboard.DueTasksSpec | components/views/Dashboard.tsx:19 | the panel lists exactly the open tasks that are undated or dated today, in store order: the list of a split store is the two lists joined |
| Dashboard.TaskDueLaterToday | components/views/Dashboard.tsx:18-19 | a task due at any time today is in the panel |
| Dashboard.StoredOverdueAlerts | components/views/Dashboard.tsx:20 | the alerts as written: exactly the bills whose stored status is overdue |
| Dashboard.PastDueMissed | components/views/Dashboard.tsx:20 | a past-due, unsnoozed bill stored as scheduled is shown overdue but raises no alert as written |
| Dashboard.OverdueAlertsSpec | components/views/Dashboard.tsx:20 | the corrected alerts are exactly the bills shown overdue; no paid bill is counted |
| Dashboard.OverdueAlertsExtendStored | components/views/Dashboard.tsx:20 | every bill the written count includes is in the corrected count |
| Dashboard.Summarize | components/views/Dashboard.tsx:18-48 | pending and focus from the due tasks, alerts from the stored-overdue bills as written, archives from the receipts |
| Dashboard.CorrectedSummary | components/views/Dashboard.tsx:20-42 | the same summary with the alerts counted from the bills shown overdue |
| Dashboard.Load | components/views/Dashboard.tsx:12-20 | the summary, as written, of the current document |
| Receipts.ReceiptFromSpec | components/views/ReceiptsView.tsx:45-56 | a receipt is made iff the result is not null/undefined; vendor, date, total and currency fall back when falsy; category and the raw result pass through; id, image and timestamps are the given ones |
| Receipts.ReceiptFromIsReceipt | components/views/ReceiptsView.tsx:45-56 | a well-formed extraction gives a well-formed receipt |
| Receipts.UploadReceipt | components/views/ReceiptsView.tsx:43-58 | exactly one receipt is added at the front, or nothing on a null result |
| Receipts.LoadReceipts | components/views/ReceiptsView.tsx:22-26 | the receipts of the current document |
| Receipts.UploadListedFirst | components/views/ReceiptsView.tsx:58-59 | a saved upload is the first receipt listed afterwards |
| Receipts.ManualBillSpec | components/views/ReceiptsView.tsx:74-86 | a well-formed, scheduled, unsnoozed USD bill with the form's payee, amount, due date, autopay and recurrence, reminded 3d and 1d ahead |
| Receipts.BillForm.constructor | components/views/ReceiptsView.tsx:14-20 | the form starts empty, due today, autopay off, no recurrence, closed |
| Receipts.BillForm.Open | components/views/ReceiptsView.tsx:126 | the form opens with its fields kept |
| Receipts.BillForm.Submit | components/views/ReceiptsView.tsx:70-92 | an empty payee or amount changes nothing; otherwise the bill is prepended and the form closes and resets |
| Receipts.CsvCells | components/views/ReceiptsView.tsx:96-102 | five cells, one per header |
| Receipts.TableReadsBack | components/views/ReceiptsView.tsx:104 | a header line and a data row without separators read back as two lines of cells |
| Receipts.CsvReadsBack | components/views/ReceiptsView.tsx:95-104 | with no comma or newline in a cell, the export reads back as the five headers and the five cells |
| Receipts.MissingCategoryIsEmptyCell | components/views/ReceiptsView.tsx:101 | a missing or empty category exports as an empty cell |

## Left out

- Browser storage and JSON are modelled as a map from keys to blobs: a stored document, or text that does not parse.
- The simulated latency, `async` ordering and the cloud-sync log line are not modelled. Every call is one sequential step.
- Store.DataStore.Get: on the fallback paths the source returns the shared module-level initial document, so a later in-place edit could alias it. The model returns a fresh value.
- The interpreter and receipt-extraction calls into the generative service are parameters: a `ParseResult` and an extracted value.
- FileReader and base64, `encodeURI` and the DOM download, the browser Notification API and speech recognition are not modelled. A transcript is a `SetInput`.
- React rendering, the `onDataChange` refreshes and the sixty-second reminder poll in App.tsx are not modelled. The views that only forward to the store (notes, settings, login) are not modelled either.
- Date parsing, time zones and number formatting are `Platform` parameters. `Coherent` states only that reading back a formatted instant gives the instant.
- Store.DefaultSettings: the zone is the host's `Intl` time zone, read once, and is a parameter.
- Receipts.ManualBill: `parseFloat` is the platform's `parseNumber`, and its NaN result is not modelled.
- Several `new Date()` reads in one handler are modelled as one instant, or one ISO text, passed in.
- Float arithmetic on amounts is `real`. `toFixed` is not modelled.
- Bills.TotalDue: `None` stands for every total that is not a number. It does not tell `NaN` (an undefined amount) from a text (a string, array or object amount, on which `toFixed` then throws).
- No comparison is defined between a string and a non-string. The agenda files only string dates; a truthy non-string date, which would throw in JavaScript, is skipped. Likewise Dashboard.DueToday counts a task whose `dueAt` is truthy but not a string as not due, where `t.dueAt.startsWith(today)` at components/views/Dashboard.tsx:19 throws a TypeError and the dashboard does not render; such a value is outside the task schema.
- Spreading a string or an array copies nothing in the model. The source never spreads either.
- Bills.LoadBills, Tasks.LoadTasks: the comparators never return 0, so ECMAScript leaves the order of ties to the implementation. The contracts state a permutation sorted by the key, not a particular tie order.
- Bills.LoadBills: a bill whose dueDate is null, missing or not a string gets the key "" and is sorted first. In JavaScript `>` with such a value is false both ways, so the comparator is inconsistent and ECMAScript leaves that bill's position to the implementation.
- `Js.LexLess` compares characters, where JavaScript compares UTF-16 code units. The two agree below U+10000.
- The CSV cells are not quoted in the source. CsvReadsBack therefore requires that no cell contains a comma or a newline.
- An extraction result of `null` throws inside the FileReader callback, which the surrounding `try` does not catch. The model saves nothing in that case.
- Logout's page reload is not modelled.

## Notes on the source

- Overdue and reminder tests: the specification says a bill is overdue, and a reminder fires, once the current time is at or past the due instant. The code tests strictly: `due < now` in the bills view and `now > due` in the reminder check. The model follows the code, so a bill is neither overdue nor reminded at the due instant itself.
- Repeated payment: the specification says marking an already-paid bill paid again leaves `paidAt` unchanged. The code overwrites it, and the model follows the code: the later payment time wins (Bills.MarkPaidTwice).
- Quick-add bill currency: the specification gives the configured default currency. The code writes the literal "USD", and so does the model.
- A quick-added task has a `tags` field only when the payload carries one, so it need not satisfy the Task interface. The views never read `tags`.

## Findings

| source | as written | input that shows it | evidently intended | confidence | as-written member | corrected member |
|---|---|---|---|---|---|---|
| components/views/Dashboard.tsx:20 | the alert count filters bills on the stored status "overdue", but the bills view derives that status at read time and never saves it, and the application's own writes store only "scheduled" or "paid" | a bill stored as "scheduled" with due date 2024-01-10 and no snooze, viewed on 2024-01-11: the bills view shows it overdue, and the dashboard counts 0 alerts | count the bills the bills view shows as overdue, using the derived status | medium, not executed | Dashboard.StoredOverdueAlerts, Dashboard.PastDueMissed | Dashboard.OverdueAlerts, Dashboard.OverdueAlertsSpec, Dashboard.CorrectedSummary |
