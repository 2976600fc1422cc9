# ORDUS Performance — a verified model of the scorecard core

ORDUS Performance tracks a small team's quarterly goals. Every user has a
number of metrics. Each week a contributor answers one short form per
metric (the check-in). A partner sees the whole team in a thirteen-week grid
(the cockpit), with one traffic-light status per metric. Partners can also
correct any cell up to the current week, run a one-on-one review, and edit
the team and its metrics.

This Dafny project models the logic of that core:

- `Calculator` (`services/calculator.ts`) reduces a metric's weekly entries to
  a value and a status. A PERCENTAGE_CUMULATIVE metric gives Σ numerator / Σ
  denominator × 100. A PERCENTAGE_AVERAGE or MAX_LIMIT metric gives the mean
  of the primary input. A SUM_TARGET metric gives the plain sum. The value is
  then classified green, yellow or red against the target, with the 0.8 and
  1.2 bands. A SUM_TARGET metric is judged against the linear pace
  target / 13 × latest week, with the 0.9 and 0.7 bands. A metric without
  entries is gray.
  - The method `CalculateMetricStatus` loops over the entries the way the
    source does. Its contract ties the result to the functional
    specification `MetricStatus`.
  - The crash of the source (reading `.key` of a missing `metric.inputs[0]`
    or `[1]`) is the `TypeError` outcome.
- `AppComponent` (`App.tsx`) is a class holding the session: the signed-in
  user, the application state, the view mode and the theme. Its handlers
  are methods. The entry upsert, the password reset and the user refresh
  are pure functions with their own lemmas.
- `DashboardComponent`, `CheckInComponent`, `AdminPanelComponent`,
  `LoginComponent` and `OneOnOneComponent` (`components/*.tsx`) are classes
  whose fields are each component's `useState` hooks. Their methods are the
  event handlers. A callback prop becomes a reference to the component that
  owns the handler: the `App`, or for the team panel the `Dashboard`, whose
  wrapper signs out a user who deleted themself.
- `Types` (`types.ts`) holds the records.
  - A weekly entry's `inputs` record (`Record<string, any>`) is an ordered
    list of numeric fields, in JavaScript enumeration order, plus the
    separate `metricId` tag. The order matters to the one-on-one chart,
    which shows "the first numeric value".
  - A number is `Finite(real)` or `NaN`, because the cockpit's cell editor
    stores `parseFloat` results unfiltered.
- `Fixtures` (`constants.tsx`) holds the seven mock users and concrete
  cases of the calculator and of sign-in.
- `Seqs` and `Wrappers` hold the generic sequence and option helpers
  (`filter`, `find`, a stable sort, `includes`, sums).

The clock, random ids, `parseFloat`, `toLowerCase` and `trim` are
parameters: a timestamp string, an id, a `Number`, and a `string -> string`
field fixed when the component is built.

## Model

| member | source | states |
|---|---|---|
| Calculator.MetricEntries | services/calculator.ts:5 | An entry is kept exactly when its tag is the metric's id, and every kept entry comes from the input. |
| Calculator.MaxWeek | services/calculator.ts:73 | The latest week is at least 1, no entry's week exceeds it, and it is 1 or some entry's week. |
| Calculator.Classify | services/calculator.ts:60-84 | A classified value is never gray. |
| Calculator.MetricStatus | services/calculator.ts:3-87 | Gray is returned exactly when the metric has no entries, and then with value 0. A crash happens exactly when the metric's entries need a missing input key. |
| Calculator.AccumulateReadings | services/calculator.ts:33-57 | The loop's sum of the primary input equals the specification sum. It fails exactly when there are entries and no input is configured. |
| Calculator.AccumulatePaired | services/calculator.ts:12-29 | The loop's denominator and numerator sums equal the sums over entries holding two numbers. It fails exactly when such an entry exists and fewer than two inputs are configured. |
| Calculator.StatusOf | services/calculator.ts:60-84 | The status chosen step by step equals the classification of the value against the target and the latest week. |
| Calculator.CalculateMetricStatus | services/calculator.ts:3-87 | The imperative calculation returns exactly `MetricStatus`: value, status and crash. |
| Calculator.StatusColor | services/calculator.ts:89-96 | Each of green, yellow and red maps to its own Tailwind class, and anything else maps to the slate one, all as if-and-only-ifs. |
| Calculator.MaxWeekPermutation | services/calculator.ts:73 | The latest week does not depend on the order of the entries. |
| Calculator.ThrowsPermutation | services/calculator.ts:19-25 | Whether the calculation crashes does not depend on the order of the entries. |
| Calculator.MetricStatusPermutation | services/calculator.ts:3-87 | Reordering the entries leaves value and status unchanged. |
| Calculator.OnlyTaggedEntriesMatter | services/calculator.ts:5 | Pre-filtering the entries to the metric's own does not change the result. |
| Calculator.ForeignEntriesIgnored | services/calculator.ts:5 | Appending entries of other metrics does not change the result. |
| Calculator.SameEntriesSameStatus | services/calculator.ts:5 | Two entry lists with the same entries for the metric give the same result. |
| Calculator.MeanValue | services/calculator.ts:40-57 | An average or max-limit metric's value is the sum of the primary input over its entries divided by their count. |
| Calculator.MeanWithinReadings | services/calculator.ts:40-57 | When every reading lies in [lo, hi], so does the mean. |
| Calculator.SumTargetAddsReading | services/calculator.ts:33-39 | A new tagged entry raises a sum-target value by exactly that entry's reading. |
| Calculator.CumulativeIgnoresSparseEntries | services/calculator.ts:20-21 | An entry holding fewer than two numbers does not change a cumulative result. |
| Calculator.CumulativeValue | services/calculator.ts:12-31 | A cumulative value is the ratio of the numerator sum to the denominator sum, in percent, and 0 when the denominator sum is 0. |
| Calculator.RatioIsPercentage | services/calculator.ts:30 | A numerator between 0 and the denominator gives a ratio between 0 and 100. |
| Calculator.CumulativeIsPercentage | services/calculator.ts:12-31 | When each entry's numerator lies between 0 and its denominator, the cumulative value is a percentage in [0, 100]. |
| Calculator.ClassifyHigherIsBetter | services/calculator.ts:69-84 | For every kind except max-limit, a larger value never gets a worse status. |
| Calculator.ClassifyLowerIsBetter | services/calculator.ts:64-68 | For max-limit, a smaller value never gets a worse status. |
| Calculator.MaxLimitBands | services/calculator.ts:64-68 | With a non-negative target: green iff value ≤ target, yellow iff target < value ≤ 1.2 × target, red iff value > 1.2 × target. |
| Calculator.TargetBands | services/calculator.ts:79-84 | With a non-negative target: green iff value ≥ target, yellow iff 0.8 × target ≤ value < target, red iff value < 0.8 × target. |
| Calculator.SumTargetLaterWeekIsStricter | services/calculator.ts:69-78 | The same sum gets a status at least as bad when the latest week is later. |
| Calculator.SumTargetAtQuarterEnd | services/calculator.ts:73-76 | In week 13 a sum-target metric is green iff the sum reaches 90% of the target. |
| Types.Get | services/calculator.ts:26 | A key reads back a value exactly when the record defines it. |
| Types.Assign | components/CheckIn.tsx:32-35 | After `{...r, [key]: v}`, the key reads back v and every other key reads as before. The key set gains the key. A new key is appended last; an existing one keeps its place. |
| Types.Tagged | components/Dashboard.tsx:45 | `{...inputs, metricId: id}` sets the tag and keeps every numeric field. |
| Types.ReadOrZero | services/calculator.ts:26 | A missing key and NaN read as 0; otherwise the stored value is read. |
| AppComponent.ViewFor | App.tsx:36-43 | A partner lands on the cockpit and anyone else on the check-in, both as if-and-only-ifs. |
| AppComponent.ResetPassword | App.tsx:45-55 | The list keeps its length. Each user with the id gets the new password, and every other user is unchanged. |
| AppComponent.ResetPasswordKeepsIds | App.tsx:47-52 | A reset changes only the password of the user at each position. |
| AppComponent.Upsert | App.tsx:62-82 | The new entry comes last, with calculated value 0. No other entry is in the edited cell (week and metric), each of them was there before, and every earlier entry outside the cell survives. |
| AppComponent.UpsertCounts | App.tsx:62-82 | Each entry is counted as often as before when outside the cell, not at all when inside it, and the new entry once more. |
| AppComponent.UpsertKeepsOrder | App.tsx:65 | The surviving entries keep their relative order. |
| AppComponent.UpsertLeavesOneEntry | App.tsx:62-82 | With tagged inputs, the cell holds exactly one entry after the update: the last one. |
| AppComponent.UpsertTwice | App.tsx:62-82 | With tagged first inputs, saving a cell twice is the same as saving the second value once. |
| AppComponent.UpsertKeepsUnique | App.tsx:62-82 | If no cell held two entries before a tagged update, none does after it. |
| AppComponent.UpdateEntry | App.tsx:62-82 | Users, feedback and week are untouched. The user gains an entry list equal to the upsert of the old one, and every other user's list is unchanged. |
| AppComponent.RefreshedUser | App.tsx:89-92 | A signed-in user stays signed in with the same id. The user is replaced by a record from the new list when one has the id, and kept as is when none does. |
| AppComponent.RefreshedUserIsFirst | App.tsx:90 | The replacement is the first user in the list with that id. |
| AppComponent.App.constructor | App.tsx:9-12 | The session starts signed out, in the check-in mode, light, with the initial state. |
| AppComponent.App.CurrentScreen | App.tsx:95-167 | The sign-in screen shows exactly when nobody is signed in, and the cockpit exactly when a user is signed in in the cockpit mode. |
| AppComponent.App.InitTheme | App.tsx:15-22 | The dark theme is switched on when the system prefers it, and nothing else changes. |
| AppComponent.App.ToggleTheme | App.tsx:24-34 | The theme flips, and nothing else changes. |
| AppComponent.App.HandleLogin | App.tsx:36-43 | The user is signed in and routed by role: partners to the cockpit, others to the check-in. |
| AppComponent.App.Logout | App.tsx:130 | Nobody is signed in and the sign-in screen shows. The state is kept. |
| AppComponent.App.SetViewMode | App.tsx:124 | Only the view mode changes. |
| AppComponent.App.HandleResetPassword | App.tsx:45-55 | The state's users become the reset list, and nothing else changes. |
| AppComponent.App.HandleUpdateEntry | App.tsx:62-82 | The state becomes `UpdateEntry` of the old state, and the session fields are unchanged. |
| AppComponent.App.HandleSaveMetric | App.tsx:57-60 | Nothing is saved when nobody is signed in. Otherwise the signed-in user's cell for the current week is upserted. |
| AppComponent.App.HandleUpdateUsers | App.tsx:84-93 | The users are replaced, and the signed-in user is refreshed from the new list. |
| DashboardComponent.WeekColumns | components/Dashboard.tsx:147 | The grid has thirteen columns, numbered 1 to 13 in order. |
| DashboardComponent.WeekColumnsCoverQuarter | components/Dashboard.tsx:180 | A week has a column iff it lies in 1..13. |
| DashboardComponent.CellEntry | components/Dashboard.tsx:181 | A cell shows an entry of that user with that week and tag, and shows none exactly when no such entry exists. |
| DashboardComponent.EntryInputs | components/Dashboard.tsx:26-30 | An empty cell gives `{}`; otherwise the cell's entry's inputs are given. |
| DashboardComponent.EntryInputsAfterUpdate | components/Dashboard.tsx:26-30 | After a tagged update, the cell reads back exactly the saved inputs and is no longer a dash. |
| DashboardComponent.OtherCellsUnchanged | components/Dashboard.tsx:181 | An update leaves every other user's or week's or metric's cell as it was. |
| DashboardComponent.RowStatus | components/Dashboard.tsx:158-159 | A row is gray exactly when its user has no entries for the metric. |
| DashboardComponent.RowColor | components/Dashboard.tsx:211 | A row's colour is missing exactly when the calculation crashes. It is slate exactly when the row has no data. |
| DashboardComponent.LatestFeedback | components/Dashboard.tsx:248-250 | A card is shown exactly when the user has feedback. |
| DashboardComponent.LatestFeedbackIsLatest | components/Dashboard.tsx:248 | The card's feedback has the greatest week, and among ties it is the first one stored (the sort is stable). |
| DashboardComponent.Dashboard.constructor | components/Dashboard.tsx:20-23 | No overlay, no editor, an empty edit form. |
| DashboardComponent.Dashboard.CurrentView | components/Dashboard.tsx:51-76 | The one-on-one overlay takes precedence over the team panel, which takes precedence over the grid. |
| DashboardComponent.Dashboard.HandleCellClick | components/Dashboard.tsx:32-41 | A non-partner or a future week changes nothing. Otherwise the editor opens on the cell with its stored inputs copied into the form. |
| DashboardComponent.Dashboard.HandleEditFormChange | components/Dashboard.tsx:312 | The form's field takes the parsed number, which can be NaN. |
| DashboardComponent.Dashboard.CancelEdit | components/Dashboard.tsx:321 | The editor closes, and the form is kept. |
| DashboardComponent.Dashboard.HandleSaveEdit | components/Dashboard.tsx:43-48 | With a cell open, the state becomes the upsert of the form tagged with the cell's metric, and the editor closes. With none open, nothing is saved. |
| DashboardComponent.Dashboard.OnAdminUpdateUsers | components/Dashboard.tsx:67-70 | The users are replaced. The partner is signed out exactly when their id is no longer in the list, and refreshed otherwise. |
| DashboardComponent.Dashboard.OpenOneOnOne | components/Dashboard.tsx:220 | The one-on-one overlay shows the chosen user. |
| DashboardComponent.Dashboard.CloseOneOnOne | components/Dashboard.tsx:57 | The overlay closes, and nothing else changes. |
| DashboardComponent.Dashboard.SetShowAdminPanel | components/Dashboard.tsx:100 | Only the team-panel flag changes. |
| CheckInComponent.SubmittedAfterSave | components/CheckIn.tsx:20-23 | After an update, a cell counts as submitted iff it is the saved one or was submitted before. |
| CheckInComponent.OrZero | components/CheckIn.tsx:34 | `parseFloat(v) \|\| 0`: NaN becomes 0, and any finite number is kept. |
| CheckInComponent.CheckIn.constructor | components/CheckIn.tsx:15-17 | The first metric, an empty form, not completed. |
| CheckInComponent.CheckIn.HandleInputChange | components/CheckIn.tsx:31-36 | The form's field takes the parsed number or 0, and every other field is kept. |
| CheckInComponent.CheckIn.HandleNext | components/CheckIn.tsx:38-49 | The active metric's cell for the current week is upserted with the tagged form. The wizard advances with a cleared form, or completes on the last metric, after which the completion message shows. Cells submitted for the earlier metrics stay submitted, so finishing a run that saved them all makes the week submitted. |
| CheckInComponent.SaveEach | components/CheckIn.tsx:38-49 | Saving a run of metrics changes only the entries: the team, the feedback and the current week stay. |
| CheckInComponent.SaveEachSubmitted | components/CheckIn.tsx:20-23 | After a run of saves, a metric is submitted for the week iff it was one of the saved ones or was submitted before. |
| CheckInComponent.CheckInCompletesWeek | components/CheckIn.tsx:20-23 | Saving every metric of the user makes `hasSubmitted` hold for the week, whatever was stored before; with no metrics it holds vacuously. |
| CheckInComponent.FilledFormEnablesSubmit | components/CheckIn.tsx:134 | Once every input field of the metric has a value the submit button is enabled; the empty form keeps it disabled iff the metric has input fields. |
| AdminPanelComponent.NewUserTemplate | components/AdminPanel.tsx:16-24 | A new user is a nameless contributor with password 123 and no metrics. |
| AdminPanelComponent.DeleteUser | components/AdminPanel.tsx:33 | Exactly the users with other ids remain. |
| AdminPanelComponent.DeleteUserKeepsOrder | components/AdminPanel.tsx:33 | The remaining users keep their relative order. |
| AdminPanelComponent.DeleteUserCounts | components/AdminPanel.tsx:33 | Each user with another id is kept as many times as it was listed; none with the id remains. |
| AdminPanelComponent.DeleteUserIds | components/AdminPanel.tsx:33 | An id survives deletion iff it differs from the deleted one and was present. |
| AdminPanelComponent.ReplaceById | components/AdminPanel.tsx:45 | Each user with the edited id is replaced by the edited record, and everything else keeps its place. |
| AdminPanelComponent.SaveUser | components/AdminPanel.tsx:41-48 | When the id exists, every user with it is replaced in place by the edited one and every other user stays at its position. A new id is appended. |
| AdminPanelComponent.SavedUserIsFound | components/AdminPanel.tsx:41-48 | After a save, looking up the id finds the saved record. |
| AdminPanelComponent.DeleteUndoesSave | components/AdminPanel.tsx:31-53 | Deleting a just-saved user leaves the list as deleting it from the old one would. |
| AdminPanelComponent.DeleteReplaced | components/AdminPanel.tsx:45 | Replacement changes nothing outside the edited id. |
| AdminPanelComponent.NewMetric | components/AdminPanel.tsx:57-64 | A new metric is "Nova Meta", a sum target of 10 "un" with one input labelled "Valor da meta". |
| AdminPanelComponent.NewMetricNeverThrows | components/AdminPanel.tsx:57-64 | A new metric never crashes the calculator. |
| AdminPanelComponent.EditMetric | components/AdminPanel.tsx:255-283 | A title, target, unit or kind edit changes exactly that field. |
| AdminPanelComponent.EditKeepsEntries | components/AdminPanel.tsx:71-76 | An edit keeps the metric's id, so its entries are still counted. |
| AdminPanelComponent.EditKeepsValue | components/AdminPanel.tsx:71-76 | A title, target or unit edit keeps the metric's computed value. |
| AdminPanelComponent.UpdateMetricAt | components/AdminPanel.tsx:71-76 | Only the metric at the index is edited. |
| AdminPanelComponent.UpdateInputLabel | components/AdminPanel.tsx:78-83 | Only the one input's label changes. |
| AdminPanelComponent.RemoveAt | components/AdminPanel.tsx:87 | The element at the index is dropped and the rest keep their order. An out-of-range index removes nothing. |
| AdminPanelComponent.RemoveAtMultiset | components/AdminPanel.tsx:87 | Removal takes out exactly the one element at the index. |
| AdminPanelComponent.EditUser | components/AdminPanel.tsx:195-221 | A name, title, password, role or avatar edit changes exactly that field. |
| AdminPanelComponent.AdminPanel.constructor | components/AdminPanel.tsx:12-13 | The panel opens on the list, edits nobody. |
| AdminPanelComponent.AdminPanel.HandleNewUser | components/AdminPanel.tsx:129-130 | The editor opens on the new-user template. |
| AdminPanelComponent.AdminPanel.HandleEditUser | components/AdminPanel.tsx:26-29 | The editor opens on a copy of the user. |
| AdminPanelComponent.AdminPanel.HandleEditField | components/AdminPanel.tsx:195-221 | The edited user takes the field edit. |
| AdminPanelComponent.AdminPanel.SetActiveTab | components/AdminPanel.tsx:108 | Only the tab changes. |
| AdminPanelComponent.AdminPanel.HandleDeleteUser | components/AdminPanel.tsx:31-35 | The team loses every user with the id. The signed-in partner is signed out exactly when they deleted themself or were already missing from the team; otherwise their record is refreshed from the new list. Entries, feedback, the week, the view and the theme stay. |
| AdminPanelComponent.AdminPanel.HandleSaveUser | components/AdminPanel.tsx:37-53 | Without an edited user or with an empty name nothing changes. Otherwise the team becomes `SaveUser` and the editor goes back to the list. The signed-in partner is signed out iff their id is missing from the saved list, and otherwise refreshed from it. Entries, feedback, the week, the view and the theme stay. |
| AdminPanelComponent.AdminPanel.HandleAddMetric | components/AdminPanel.tsx:55-69 | The edited user gains the new metric at the end. |
| AdminPanelComponent.AdminPanel.HandleUpdateMetric | components/AdminPanel.tsx:71-76 | The edited user's metric at the index takes the edit. |
| AdminPanelComponent.AdminPanel.HandleUpdateInputLabel | components/AdminPanel.tsx:78-83 | The edited user's metric input takes the new label. |
| AdminPanelComponent.AdminPanel.HandleRemoveMetric | components/AdminPanel.tsx:85-89 | The edited user loses the metric at the index. |
| LoginComponent.LoginLookup | components/Login.tsx:29-32 | The checked user is a member matching by name or title. There is none exactly when nobody matches. |
| LoginComponent.FirstMatchDecides | components/Login.tsx:29-34 | An attempt succeeds iff the first matching user's password is the typed one. |
| LoginComponent.EmptyQuerySelectsFirst | components/Login.tsx:29-32 | An empty name selects the first user. |
| LoginComponent.ResetThenLogin | components/Login.tsx:71-73 | After a reset, the same query signs in with the new password. |
| LoginComponent.RecoveryLookup | components/Login.tsx:42 | Recovery finds a user whose lowercased name equals the search, and none exactly when nobody's does. |
| LoginComponent.RecoveryMatchIsLoginMatch | components/Login.tsx:42 | A user found by recovery also matches that name at sign-in. |
| LoginComponent.Login.constructor | components/Login.tsx:14-23 | Every field starts empty and the recovery is closed. |
| LoginComponent.Login.SetUsername | components/Login.tsx:136 | The name takes the typed text; every other field of the form stays. |
| LoginComponent.Login.SetPassword | components/Login.tsx:159 | The password takes the typed text; every other field of the form stays. |
| LoginComponent.Login.HandleLoginSubmit | components/Login.tsx:25-39 | A match with the right password signs in the first matching user and routes them by role. Otherwise the invalid-credentials message is set and nobody is signed in. The typed name and password, the recovery fields, the team and the theme stay. |
| LoginComponent.Login.HandleOpenRecovery | components/Login.tsx:41-52 | An exact name match is preselected. Otherwise the typed name is carried into the search. The recovery opens, cleared. |
| LoginComponent.Login.SetRecoverySearchName | components/Login.tsx:210-213 | Typing sets the search and clears its error; every other field stays. |
| LoginComponent.Login.HandleSearchUser | components/Login.tsx:54-69 | A blank search is rejected without a lookup. A found user is selected. Otherwise the not-found message is set. |
| LoginComponent.Login.SetNewPassword | components/Login.tsx:249 | The new password takes the typed text; every other field of the form stays. |
| LoginComponent.Login.ClearRecoveryUser | components/Login.tsx:262 | The selected user is cleared; every other field stays. |
| LoginComponent.Login.CloseRecovery | components/Login.tsx:195 | The recovery closes; every other field stays. |
| LoginComponent.Login.HandleRecoverySubmit | components/Login.tsx:71-81 | Only with a selected user and a non-empty password: the password is reset and the recovery is closed and cleared. |
| OneOnOneComponent.NatToString | components/OneOnOne.tsx:78 | The decimal form of a week is a non-empty string of digits. |
| OneOnOneComponent.IntToString | components/OneOnOne.tsx:78 | An integer's decimal form is non-empty and starts with `-` iff the integer is negative. |
| OneOnOneComponent.NatToStringValue | components/OneOnOne.tsx:78 | The digits read back as the number, and only zero starts with `0`. |
| OneOnOneComponent.IntToStringValue | components/OneOnOne.tsx:78 | The signed decimal text reads back as the integer. |
| OneOnOneComponent.FirstValue | components/OneOnOne.tsx:75-77 | A point's value is the first numeric field, or 0 when there is none. |
| OneOnOneComponent.ToPoint | components/OneOnOne.tsx:74-78 | A point is named "S" and the week, and carries the first numeric value. |
| OneOnOneComponent.ChartEntries | components/OneOnOne.tsx:70-73 | With no metrics the view crashes. Otherwise the entries shown are the primary metric's, as a permutation, sorted by week. |
| OneOnOneComponent.ChartData | components/OneOnOne.tsx:70-79 | The chart has one point per primary-metric entry, in chart order. |
| OneOnOneComponent.ChartIsChronological | components/OneOnOne.tsx:71-73 | The listed weeks never decrease, and an entry is charted iff it is one of the primary metric's. |
| OneOnOneComponent.LastCommitment | components/OneOnOne.tsx:36-39 | Last week's feedback, if stored, is shown. It is missing exactly when no feedback has the previous week. |
| OneOnOneComponent.CurrentWeekFeedback | components/OneOnOne.tsx:26 | This week's feedback is loaded if stored. It is missing exactly when none has the current week. |
| OneOnOneComponent.InitialForm | components/OneOnOne.tsx:16-21 | The form starts on the current week with three empty notes. |
| OneOnOneComponent.EditNote | components/OneOnOne.tsx:214-242 | Each textarea changes only its own note. |
| OneOnOneComponent.OneOnOne.constructor | components/OneOnOne.tsx:16-22 | The initial form, and no saved message. |
| OneOnOneComponent.OneOnOne.LoadEffect | components/OneOnOne.tsx:25-33 | Stored feedback for the current week replaces the form. Its timestamp becomes the saved message only when it is present and non-empty, as JavaScript's truthiness test has it. |
| OneOnOneComponent.OneOnOne.HandleNoteChange | components/OneOnOne.tsx:214-242 | The form takes the note edit. |
| OneOnOneComponent.OneOnOne.HandleFeedbackSubmit | components/OneOnOne.tsx:41-67 | The payload holds the current week, the form's notes, an open commitment and the "Alinhamento Registrado" stamp. The stamp becomes the saved message. |
| Fixtures.RafaelAtRisk | constants.tsx:6-26 | Rafael's CPA metric with 5 of 10 accounts reduced in two weeks computes 50%, yellow against 60%. |
| Fixtures.LeandroOnPace | constants.tsx:98-107 | Four audits by week 4 of a 12-audit quarter is green. |
| Fixtures.LeandroBehind | constants.tsx:98-107 | One audit by week 3 is red. |
| Fixtures.JoelWithoutBills | constants.tsx:150-159 | Entries of Joel's other metric leave the bills metric gray with value 0. |
| Fixtures.DecisionTimeBoundary | types.ts:11 | For a 7-day max-limit metric, 8.4 is yellow and 8.41 is red. |
| Fixtures.PartnerSignIn | constants.tsx:5-193 | With any lowercasing that maps the query and the first five users' names and titles to lower case, signing in as "Sócio" checks Leandro, the first partner. "admin" succeeds, "123" fails, and Leandro lands on the cockpit. |

## Left out

- Rendering: the JSX markup, Tailwind classes other than the status colours, lucide icons and the recharts chart are left out. The chart's data is modelled; its drawing is not.
- `calculateWeeklyValue`, which the cockpit imports for each cell's number, is not defined in `services/calculator.ts`. Only whether a cell shows a dash or an entry is modelled, not the number shown, and not `Math.round` or `toFixed(1)`.
- The clock: `Date.now()` ids and avatar seeds, `new Date().toISOString()` and the `pt-BR` date formatting are parameters (a string).
- `Math.random` in the mock history is left out. The fixtures use fixed entries instead, and `Fixtures.InitialState` takes the entries as a parameter.
- `window.matchMedia` and the `dark` class on the document are left out; the system preference is a parameter of `InitTheme`.
- The `FileReader` avatar upload is reduced to its result, the `Avatar` edit.
- `parseFloat`, `toLowerCase` and `trim` are parameters, with no Unicode case mapping.
- `confirm` and `alert`: deletion is modelled as confirmed. The success and "Nome é obrigatório" alerts are not modelled; the failed save changes nothing.
- React scheduling: the handlers apply their updates at once, in order. `useEffect` runs when `LoadEffect` is called. Functional updates (`prev => …`) read the current field.
- The saving of one-on-one feedback is left out. `Dashboard` declares an `onSaveFeedback` prop that `App.tsx` never passes (`App.tsx:157-165`), so a submission in the assembled app would call `undefined`. No handler stores feedback anywhere in the source. `OneOnOneComponent.OneOnOne.HandleFeedbackSubmit` follows the component as if a callback were supplied: it returns the payload handed to `onSaveFeedback` and then sets the saved message, and no application state changes. The assembled app's path, where the call at `components/OneOnOne.tsx:58` throws before the saved message is set at line 66, is not modelled.
- AdminPanelComponent.UpdateInputLabel: the source assigns the label in place on the metric object, which the old user list shares with the edited copy. That aliasing, which also changes the saved team before "Salvar", is not modelled; the edit is a value update.
- AdminPanelComponent.UpdateMetricAt: requires an index inside the list; the source's assignment past the end would extend the array with a hole, and the form can only send existing indices.
- AdminPanelComponent.EditMetric: a `targetValue` of NaN (`parseFloat` of an empty field) is not modelled, because targets are reals.
- Calculator.MetricStatus: numbers are exact reals. IEEE-754 rounding, infinities, and NaN arithmetic inside the sums (the enumeration of a NaN field counts as a number but reads as 0) are modelled only as far as `|| 0` goes.
- The upsert replaces a cell only when the saved inputs carry its tag. Both handlers of the source always tag, so the idempotence lemmas assume it.
