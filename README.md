# Incident notification workflow — a verified model

This project models the core of a hospital patient-safety reporting application.

The application has four parts:

- **Public intake form.** Anyone can report an adverse event through a three-step anonymous form.
- **Quality team dashboard.** The quality team triages each report. It can send a report to the notified area with a seven-day deadline. It can request priority for an overdue report or archive it without analysis.
- **Area manager dashboard.** Each manager sees the reports sent to their own sectors. They do a root-cause analysis (an Ishikawa 6M diagram and a 5W2H action plan) and save it as a draft or finalize it.
- **Administrator page.** The administrator maintains users, sectors and roles.

All state lives in memory in the application shell. The notification list has two operations: adding a report and merging a partial update into the records with a given id.

Modules, one per source file of the core:

| module | file | models |
|---|---|---|
| `Types` | `types.dfy` | records and enumerations: notifications, Ishikawa diagram, action plan, users, sectors, roles |
| `SeqUtil` | `seq_util.dfy` | the array filter every view uses, and its membership/order/multiset guarantees |
| `App` | `app.dfy` | the notification store (`NotificationStore`, a class whose `notifications` field is reassigned) and the role-based router |
| `Lifecycle` | `lifecycle.dfy` | the updates the dashboards send, their guards, and the status changes they cause |
| `Quality` | `quality.dfy` | the quality view: the filtered list, the indicator tiles, the page state (`QualityBoard`) |
| `TopSectors` | `top_sectors.dfy` | the "top notifying sectors" card: a tally loop, a stable sort by count, the first three |
| `Manager` | `manager_dashboard.dfy` | the manager view: tabs, the SLA countdown, the analysis desk (`AnalysisDesk`) |
| `Admin` | `admin_settings.dfy` | the settings page (`AdminPanel`) and the login screen's list of active users |
| `Intake` | `public_form.dfy` | the intake wizard (`IntakeWizard`) |

**Time.** Time is a parameter of the model.

- `now` stands for the millisecond clock.
- A deadline is stored as a UTC day number. The source stores the ISO date string `YYYY-MM-DD`; a day number is the same information.
- Parsing that date gives midnight UTC of that day, so the deadline instant is `deadline * 86400000`.

**Random values.** Generated identifiers are parameters of the operations that create records.

**Confirmation dialog.** The browser's confirmation dialog is a boolean parameter.

## Model

| member | source | states |
|---|---|---|
| App.Created | App.tsx:39-47 | the new record carries every submitted field unchanged; it gets the given id and number, status PENDING, is not sent to the area, records the clock as its creation time, and has every analysis, escalation and follow-up field absent |
| App.Prepended | App.tsx:39-49 | adding a report puts exactly one new record at the head, numbered 1000 plus the old length; the old list follows unchanged |
| App.ApplyPatch | App.tsx:51-53 | merging an update replaces exactly the keys present in the update; every submitted field, the id and the number are untouched |
| App.UpdateAll | App.tsx:51-53 | the list keeps its length; records with another id are unchanged; records with the id get the merged update |
| App.DenseNumbersDecrease | App.tsx:43-48 | in a list built by the store, numbers strictly decrease from the head, so they are unique, and the head holds the highest |
| App.PrependKeepsDense | App.tsx:43-48 | adding a report keeps the numbering dense (1000 up to length + 999, newest first) |
| App.UpdateKeepsDense | App.tsx:51-53 | updates never renumber, so the numbering stays dense |
| App.UpdateMissingIdIsIdentity | App.tsx:51-53 | an update for an id no record carries leaves the list identical |
| App.UpdatesCompose | App.tsx:51-53 | two updates of the same id in a row equal one update with the later keys winning |
| App.UpdateIdempotent | App.tsx:51-53 | applying the same update twice equals applying it once |
| App.NotificationStore.constructor | App.tsx:33 | the store starts empty, which satisfies the dense-numbering invariant |
| App.NotificationStore.AddNotification | App.tsx:39-49 | the new list is the old one with the new record prepended; the numbering invariant is kept |
| App.NotificationStore.UpdateNotification | App.tsx:51-53 | the new list is the merged update of the old one; the numbering invariant is kept |
| App.PageFor | App.tsx:62-81 | with nobody logged in, and only then, the router redirects to login; quality staff and administrators get the quality view and everyone else the manager view; the admin page appears exactly for an administrator on the admin route; other roles are redirected to the dashboard |
| App.Session.constructor | App.tsx:37 | nobody is signed in at start |
| App.Session.Login | components/Login.tsx:35-38 | signing in as an active user makes the dashboard show that user's view |
| App.Session.Logout | App.tsx:65 | after logout every dashboard route redirects to login |
| Lifecycle.DeadlineDay | components/QualityDashboard.tsx:276 | the deadline day is the UTC day containing the instant seven days after dispatch |
| Lifecycle.PatchOf | components/QualityDashboard.tsx:71-81 | the whole update each action sends. Dispatch: SENT_TO_AREA, sent flag, deadline. Priority: only the priority flag. Close: ARCHIVED and closed-without-action. Save (components/ManagerDashboard.tsx:54-59): diagram, plan, London flag, and COMPLETED or ANALYZING. No action sends PENDING or OVERDUE, or clears the sent flag |
| Lifecycle.OfferedActionFollowsEdge | components/QualityDashboard.tsx:273-297 | on a record whose sent flag agrees with its status, every action whose button is rendered and enabled (save only on records the manager list shows, components/ManagerDashboard.tsx:42) moves the status along the code's graph: PENDING only to SENT_TO_AREA, OVERDUE to itself or ARCHIVED, any dispatched status to ANALYZING or COMPLETED; the flag stays in agreement |
| Lifecycle.PrependKeepsSentFlags | App.tsx:39-53 | a new report is PENDING and unsent, so the store keeps "sent exactly when no longer PENDING" |
| Lifecycle.GuardedUpdateKeepsSentFlags | App.tsx:51-53 | an update for an offered action keeps "sent exactly when no longer PENDING" across the whole store |
| Lifecycle.DispatchEffect | components/QualityDashboard.tsx:273-278 | dispatch yields the record with SENT_TO_AREA, the sent flag and the deadline, every other field unchanged; afterwards the dispatch button is no longer shown |
| Lifecycle.PriorityEffect | components/QualityDashboard.tsx:285-290 | requesting priority yields the record with only the priority flag set; the stored record no longer offers it, the open view keeps its old copy, and a repeat is harmless (`App.UpdateIdempotent`) |
| Lifecycle.CloseEffect | components/QualityDashboard.tsx:71-81 | closing yields the record with ARCHIVED and closed-without-action, every other field unchanged; no quality action is offered on it afterwards |
| Lifecycle.SaveEffect | components/ManagerDashboard.tsx:52-61 | saving yields the record with the status, diagram, plan and London flag of the draft, every other field unchanged; it can be saved again |
| Lifecycle.CompletedCanBeReopened | components/ManagerDashboard.tsx:52-61 | saving has no status check: on a dispatched COMPLETED record, saving as a draft sets it back to ANALYZING |
| Lifecycle.NoOverdueKept | App.tsx:39-53 | neither adding a report nor any dashboard action introduces OVERDUE |
| Lifecycle.EscalationUnreachable | components/QualityDashboard.tsx:285-297 | in a list without OVERDUE records, the priority and close buttons are never shown |
| Quality.Filtered | components/QualityDashboard.tsx:21-42 | as written: the table lists, in store order and with multiplicities, exactly the records matching search text, month (only 'Todos' meaning every month), tab and indicator |
| Quality.FilteredCorrected | components/QualityDashboard.tsx:21-42 | the same listing with the corrected month test, in which 'Todos os Meses' also means every month |
| Quality.InitialFilterKeepsTab | components/QualityDashboard.tsx:21-42 | as written, with the initial month 'Todos', no search and no tile (or the total tile), the table lists exactly the records of the tab |
| Quality.StatsCountIndicator | components/QualityDashboard.tsx:64-69 | each tile's value is the number of records that its own indicator filter keeps |
| Quality.FilteredWithinTile | components/QualityDashboard.tsx:35-38 | with a tile selected, the table never lists more records than that tile shows |
| Quality.EmptySearchMatches | components/QualityDashboard.tsx:23-27 | an empty search string matches every record |
| Quality.TabsDisjoint | components/QualityDashboard.tsx:30-33 | no record is in two tabs, and an archived record is in none |
| Quality.AllMonthsOptionKeepsEverything | components/QualityDashboard.tsx:28 | corrected month test: with no search and no indicator, both "every month" values list exactly the records of the tab |
| Quality.AllMonthsOptionHidesEverything | components/QualityDashboard.tsx:102-109 | as written, choosing "Todos os Meses" hides every record whose month comes from the catalogue |
| Quality.AllMonthsOptionCounterexample | components/QualityDashboard.tsx:28 | a pending January record that the as-written test hides and the corrected test shows |
| Quality.ToggleIndicator | components/QualityDashboard.tsx:121 | clicking the active tile clears the selection; clicking any other tile selects it |
| Quality.ToggleIndicatorTwice | components/QualityDashboard.tsx:121 | when no tile or the same tile was selected, clicking a tile twice restores that selection (from another tile, two clicks leave the clicked tile off rather than restoring the other) |
| Quality.QualityBoard.constructor | components/QualityDashboard.tsx:15-19 | the page starts with empty search, month 'Todos', pending tab, no record open, no tile |
| Quality.QualityBoard.Open | components/QualityDashboard.tsx:191 | with no record open (the open record covers the list), opening a listed row puts it on display and changes nothing else |
| Quality.QualityBoard.SetSearch | components/QualityDashboard.tsx:98-99 | the search box replaces only the search text |
| Quality.QualityBoard.SetMonth | components/QualityDashboard.tsx:104-105 | the month select replaces only the month |
| Quality.QualityBoard.CloseView | components/QualityDashboard.tsx:237 | the cross closes the record view |
| Quality.QualityBoard.ClickIndicator | components/QualityDashboard.tsx:121 | a tile click toggles the indicator and leaves the rest of the page alone |
| Quality.QualityBoard.SelectTab | components/QualityDashboard.tsx:145 | switching tab also clears the indicator |
| Quality.QualityBoard.DispatchToArea | components/QualityDashboard.tsx:273-278 | for a pending record on display, the store receives the dispatch update and the view closes |
| Quality.QualityBoard.RequestPriorityAction | components/QualityDashboard.tsx:71-74 | for an overdue record without a request, the store receives the priority update; the displayed copy is not refreshed |
| Quality.QualityBoard.CloseWithoutActionAction | components/QualityDashboard.tsx:75-80 | after confirmation the store receives the archive update and the view closes; without confirmation nothing changes |
| TopSectors.Bump | components/QualityDashboard.tsx:57 | a known sector's entry is incremented in place; a new sector is appended with count one |
| TopSectors.TallyStep | components/QualityDashboard.tsx:56-58 | one tally step turns the tally of a prefix into the tally of the prefix plus one record |
| TopSectors.TallySectors | components/QualityDashboard.tsx:55-58 | the loop yields one entry per notified sector, with its exact volume, in order of first sighting |
| TopSectors.SortByCount | components/QualityDashboard.tsx:59-60 | the sort is a permutation of the entries |
| TopSectors.SortRanked | components/QualityDashboard.tsx:59-60 | the stable descending sort of a tally ranks by volume, ties by first sighting |
| TopSectors.LeftOutAreBehind | components/QualityDashboard.tsx:59-61 | no sector left out of a prefix of the ranking ranks ahead of a kept one |
| TopSectors.ComputeTopSectors | components/QualityDashboard.tsx:54-62 | min(3, number of sectors) distinct sectors with their true volumes, ranked, and no left-out sector ranks ahead of a kept one |
| Manager.ManagerRows | components/ManagerDashboard.tsx:36-43 | the rows are exactly the records sent to the active sector that belong to the active tab, in store order |
| Manager.TabOf | components/ManagerDashboard.tsx:38-41 | every record belongs to exactly one of the three tabs |
| Manager.TabsPartition | components/ManagerDashboard.tsx:36-43 | a record sent to a sector is listed in its own tab and in no other |
| Manager.TabCountsAdd | components/ManagerDashboard.tsx:36-43 | the three tab counts add up to the number of records sent to the sector |
| Manager.UndispatchedHidden | components/ManagerDashboard.tsx:42 | a record the quality team has not sent is in no manager's list |
| Manager.DispatchedIsOpenWork | components/ManagerDashboard.tsx:36-43 | a dispatched record is listed as open work in its notified sector |
| Manager.SaveMovesTab | components/ManagerDashboard.tsx:52-59 | a draft save keeps the record in the pending tab; finalizing moves it to the completed tab |
| Manager.CeilDiv | components/ManagerDashboard.tsx:66 | the result is the least integer at or above the quotient |
| Manager.GetSLA | components/ManagerDashboard.tsx:63-67 | no deadline gives no countdown; otherwise the countdown is the whole days to the deadline instant, rounded up |
| Manager.BadgeOf | components/ManagerDashboard.tsx:330-332 | "Aguardando Triagem" exactly without a deadline; otherwise the badge shows the SLA day count, reads "Expirado" exactly from the deadline instant on, is red exactly from two days before it, and expired implies red |
| Manager.SlaAtDispatch | components/ManagerDashboard.tsx:63-67 | at the moment of dispatch the countdown reads exactly seven days |
| Manager.SlaNonIncreasing | components/ManagerDashboard.tsx:63-67 | the countdown never goes up as time passes |
| Manager.ExpiredIffPastDeadline | components/ManagerDashboard.tsx:332 | the countdown is at or below zero exactly when the deadline instant has passed |
| Manager.Loaded | components/ManagerDashboard.tsx:45-50 | opening a record loads its saved diagram and plan when present; the London flag is only ever switched on |
| Manager.SaveThenLoad | components/ManagerDashboard.tsx:45-59 | reopening a record right after saving it shows exactly the draft that was saved |
| Manager.DraftCarriesOver | components/ManagerDashboard.tsx:45-50 | a record without a saved analysis opens on the previous record's draft |
| Manager.AnalysisDesk.constructor | components/ManagerDashboard.tsx:18-33 | starts on the user's first sector (or none), the pending tab, nothing selected, an empty draft |
| Manager.AnalysisDesk.SelectSector | components/ManagerDashboard.tsx:250-253 | only the user's own sectors can be chosen, and only while no record is open (the desk replaces the list, components/ManagerDashboard.tsx:69) |
| Manager.AnalysisDesk.SelectTab | components/ManagerDashboard.tsx:272 | while no record is open, switching tab changes nothing else |
| Manager.AnalysisDesk.StartAnalysis | components/ManagerDashboard.tsx:45-50 | while no record is open, selects a listed record and loads its analysis into the draft |
| Manager.AnalysisDesk.ToggleLondon | components/ManagerDashboard.tsx:125 | flips only the London flag of the draft |
| Manager.AnalysisDesk.Back | components/ManagerDashboard.tsx:74 | leaves the desk without saving and keeps the draft |
| Manager.AnalysisDesk.SaveAnalysis | components/ManagerDashboard.tsx:52-61 | with nothing selected nothing changes; otherwise the store receives the draft as a save update the selected record offers (it was listed, so sent), the selection clears, and the draft is kept |
| Admin.NewUser | components/AdminSettings.tsx:29-37 | no user when the name or e-mail is missing or empty; otherwise an active user with the given id, an empty role replaced by 'Gestor', and a missing sector list replaced by none |
| Admin.ToggledUsers | components/AdminSettings.tsx:57-59 | flips the active flag of the users with the id and nothing else, keeping length and order |
| Admin.ToggledSectors | components/AdminSettings.tsx:61-63 | flips the active flag of the sectors with the id and nothing else, keeping length and order |
| Admin.ToggleUsersTwice | components/AdminSettings.tsx:58 | toggling a user twice is the identity |
| Admin.ToggleSectorsTwice | components/AdminSettings.tsx:62 | toggling a sector twice is the identity |
| Admin.LoginCandidates | components/Login.tsx:35 | the login screen lists exactly the active users, in order, each as often as it occurs in the user list |
| Admin.ToggleFlipsLogin | components/Login.tsx:35 | switching a user off removes them from the login screen; switching them on adds them |
| Admin.NewUserCanSignIn | components/AdminSettings.tsx:30-38 | a newly added user is offered on the login screen |
| Admin.PickableSectors | components/AdminSettings.tsx:234 | the picker offers exactly the names of active sectors |
| Admin.ToggledMembership | components/AdminSettings.tsx:237-240 | a click flips whether the name is picked and leaves every other name's membership alone; an unpicked name is appended at the end |
| Admin.ToggleMembershipTwice | components/AdminSettings.tsx:239 | clicking an unpicked sector twice restores the list |
| Admin.ToggleKeepsDistinct | components/AdminSettings.tsx:239 | a list without repeated names keeps that property |
| Admin.AdminPanel.constructor | components/AdminSettings.tsx:20-25 | the form is closed and the draft fresh |
| Admin.AdminPanel.SetModal | components/AdminSettings.tsx:98 | opening or closing the form keeps the draft |
| Admin.AdminPanel.AddUser | components/AdminSettings.tsx:27-41 | without a name or e-mail nothing changes; otherwise exactly one user is appended, the form closes and the draft resets |
| Admin.AdminPanel.AddSector | components/AdminSettings.tsx:43-48 | an empty name is ignored; otherwise one active sector is appended and the field cleared |
| Admin.AdminPanel.AddRole | components/AdminSettings.tsx:50-55 | an empty name is ignored; otherwise one role without permissions is appended and the field cleared |
| Admin.AdminPanel.ToggleUserStatus | components/AdminSettings.tsx:57-59 | the users become their toggled list; nothing else changes |
| Admin.AdminPanel.ToggleSectorStatus | components/AdminSettings.tsx:61-63 | the sectors become their toggled list; nothing else changes |
| Admin.AdminPanel.ToggleDraftSector | components/AdminSettings.tsx:234-241 | a click on an offered sector flips its membership in the draft's sector list |
| Intake.NextOf | components/PublicForm.tsx:40 | never past step 3; from a step at or after 1 never before 1; below 3 exactly one step forward; at or past 3 stays at 3 |
| Intake.PrevOf | components/PublicForm.tsx:41 | never before step 1; from a step at or before 3 never past 3; above 1 exactly one step back; at or before 1 stays at 1 |
| Intake.ButtonsMatchMoves | components/PublicForm.tsx:168-178 | "Voltar" shows exactly when going back moves the step, "Próximo" exactly when going forward does, and submit only on step 3 |
| Intake.NextPrevInverse | components/PublicForm.tsx:40-41 | forward then back (or back then forward) returns to the starting step whenever the first move was offered |
| Intake.StepStaysInRange | components/PublicForm.tsx:40-41 | from any step in 1..3, no sequence of clicks leaves 1..3 |
| Intake.ForwardReachesLast | components/PublicForm.tsx:40 | enough forward clicks always reach step 3 |
| Intake.DefaultForm | components/PublicForm.tsx:17-38 | the form starts with portal origin, day shift, today's date and month, no damage, risk circumstance, empty sectors and description |
| Intake.IntakeWizard.constructor | components/PublicForm.tsx:15-17 | starts on step 1, not submitted, with the default fields |
| Intake.IntakeWizard.NextStep | components/PublicForm.tsx:40 | advances the step within 1..3 |
| Intake.IntakeWizard.PrevStep | components/PublicForm.tsx:41 | moves the step back within 1..3 |
| Intake.IntakeWizard.Submit | components/PublicForm.tsx:43-47 | the collected fields go to the store unchanged as a new head record, and the form shows the thank-you screen |
| Intake.IntakeWizard.Reset | components/PublicForm.tsx:61 | back to step 1 and the form, keeping the fields as typed |

## Left out

- Rendering, styling, icons, animations, the status colour map (`getStatusStyle`), the export button and the London-protocol guide pop-up: presentation only.
- The sidebar and the login screen's navigation. The routing decision is modelled in `App.PageFor`; the login list is modelled in `Admin.LoginCandidates`.
- The administrator page's tab switch, and the seed data (initial users, sectors and roles): presentation and fixtures.
- Text-field change handlers in the intake form, the new-user form, and the Ishikawa and action-plan editors. Each replaces one field of a record; what the model follows is where those records go.
- The browser's required-field validation in the intake and new-user forms: it is enforced by the browser, not by the code.
- The alert after a priority request: a message only.
- Quality.MatchesText: lower-casing covers ASCII letters only; JavaScript's full Unicode case mapping is not modelled.
- TopSectors.ComputeTopSectors: a sector whose name is an inherited property of a plain JavaScript object ("constructor", "toString", "valueOf", "hasOwnProperty", "__proto__" and the like) is counted as an ordinary name. In the code such a name either reads the inherited property as its starting count, which yields a text instead of a number and an unspecified order, or, for "__proto__", is never stored and so never listed. The model states exact volumes and the stable ranking for these names too.
- TopSectors.Bump: treats every sector name as an ordinary key, including names of inherited object properties, which the code's object lookup does not.
- TopSectors.TallySectors: the tally equals the true volumes for every name, including names of inherited object properties, where the code's count is garbage or missing.
- TopSectors.ComputeTopSectors: the dictionary is taken to keep insertion order. JavaScript lists integer-like keys (a sector named "12", say) first, in numeric order; that case is not modelled.
- The deadline is a day number. The ISO date string itself, and its empty-string case, are not modelled: the code only ever writes well-formed dates.
- `App.Patch` covers only the keys the dashboards actually send in an update.
- Concurrency: `addNotification` reads the list from its closure rather than from the state updater. Operations are modelled one at a time, so interleaved additions are not modelled.
- No code path writes OVERDUE or derives it from the deadline, and the operations have no error results; the model follows the code (`Lifecycle.NoOverdueKept`, `Lifecycle.EscalationUnreachable`).
- Manager.AnalysisDesk.StartAnalysis: the draft carry-over (`Manager.DraftCarriesOver`) is modelled as written. The code may mean to reset the draft, but no statement of intent says so.

## Findings

| source | as written | input that shows it | evidently intended | confidence | as-written member | corrected member |
|---|---|---|---|---|---|---|
| components/QualityDashboard.tsx:28 | the month test treats only the value 'Todos' as "every month", but the select's every-month option (line 107) carries the value 'Todos os Meses' | choose "Todos os Meses" in the select: every record from the intake form (month "jan." … "dez.") disappears from the table | the every-month option keeps every month | not executed | Quality.AllMonthsOptionHidesEverything | Quality.AllMonthsOptionKeepsEverything |

The page model (`Quality.QualityBoard`) lists its rows with the filter as written (`Quality.Filtered`); the corrected listing is `Quality.FilteredCorrected`.
