# Kitchen installation incident dashboard — a Dafny model

The dashboard tracks kitchens a retailer sells and installs, and the incidents that arise with
them. A kitchen has an order number, a client, the LDAP of the employee who registered it, a
seller, an installer and an installation date. An incident belongs to one kitchen. It has a cause
(seller, installer, logistics or other), a status (pending, in progress, completed), optional
seller and installer assignments, and an append-only history of notes, each signed by a
directory user.

This project models the record logic of the dashboard:

- the root component (`index.tsx`): loading and normalising incident rows, the month/year scope,
  the per-seller and per-installer summaries, and the payloads of its write handlers;
- the alternative root (`App.tsx`): raw loading that keeps the old data on a failed fetch,
  reload after a successful write, and its own (different) summary rule;
- the components: registration forms, the task list and task board, the dashboard ratios, the
  drill-down, the resolution-speed analysis, the cause chart, the kitchen list timeline and the
  kitchen detail view.

One Dafny module corresponds to one source file:

- `Domain` holds the records of `types.ts` and the constants of `constants.ts`.
- `Seqs` (order-preserving filter, count, sum, stable sort) and `Text` (JavaScript `trim` and
  `includes`) are the helpers.
- `Scope` is the month/year filter the two roots share.

Pure code is modelled as functions with lemmas. Component state that handlers update is modelled
as classes whose methods state their whole new state: `Loader.RootApp`, `AppShell.App`,
`IncidentRegistration.IncidentForm`, `KitchenRegistration.KitchenForm`, `TaskNotes.NoteDrafts`
and `TaskBoard.Board`. The two loops that build collections step by step are methods proved
against specification functions: the cause-count `reduce` and the `forEach` that fills the
kitchen timeline.

Choices made in the model:

- Timestamps are integers (milliseconds).
- An installation date is a calendar `(year, month, day)`.
- Percentages and the mean resolution times in days are reals.
- `JSON.parse` is a parameter that yields a malformed result, a non-array or a list of entries.
- `JSON.stringify`, lower-casing, `uuidv4()` and the clock are parameters.

## Model

| member | source | states |
|---|---|---|
| Text.Trim | components/TaskList.tsx:22 | the result is a window `s[i..j]` of the input with only white space before `i` and after `j` and none at either of its own ends, and it is empty exactly when the input is all white space |
| Domain.Lookup | components/IncidentRegistrationForm.tsx:32 | a user is found exactly for a directory LDAP, and it is that LDAP's record |
| Domain.LookupAsWritten | components/TaskList.tsx:24 | the lookup as the source evaluates it gives each directory LDAP its record, and resolves exactly the directory LDAPs and the twelve members a plain object inherits, these with no role |
| Domain.InheritedMemberPassesAsWritten | constants.ts:9-15 | `constructor` and `__proto__` are not directory LDAPs, yet the source's lookup resolves them (to a user named `Object`, and to one with no name); the corrected lookup rejects both |
| Domain.LookupsAgreeOffInherited | components/TaskList.tsx:24 | the source's lookup and the corrected one accept the same LDAPs except the inherited members, and give a directory user the same name |
| Domain.DirectoryEntriesEnumerateMap | components/IncidentRegistrationForm.tsx:38 | the enumeration order of the directory lists each record exactly once, with its own user |
| Domain.DirectoryLdapsNonEmpty | constants.ts:9-15 | every directory LDAP has eight characters, so the empty LDAP is never a user |
| Domain.KitchensFor | index.tsx:80 | exactly the kitchens whose seller (or installer) is the name, in their original order |
| Domain.KitchenIds | index.tsx:75 | the id set holds the id of every kitchen and no other id |
| Domain.FindKitchen | components/Tasks.tsx:30 | absent exactly when no kitchen has the id; otherwise the first kitchen of the list with that id |
| Domain.OwnKitchenIds | index.tsx:80-82 | the ids of someone's kitchens are exactly the ids of the kitchens they handle in the role (`ks.some(k => k.id === i.kitchenId)`) |
| Domain.Percentage | index.tsx:85 | 0 for a zero total; otherwise count × 100 / total; never negative, and at most 100 when the count is within the total |
| Domain.PercentageMonotone | components/Dashboard.tsx:58 | a larger count over the same total never gives a smaller percentage |
| Domain.PercentagesOfFourParts | components/IncidentCausePieChart.tsx:75 | four counts that partition a non-empty total have shares adding up to 100 |
| Domain.PercentageAbove8 | components/IncidentCausePieChart.tsx:126 | a share above 8 % means more than 2 in 25 |
| Loader.ParsedHistory | index.tsx:34-42 | only a non-blank string other than `"NULL"` is parsed; a parse that throws or yields a non-array gives an empty history; otherwise the parsed array |
| Loader.LegacyEntry | index.tsx:46-50 | the synthesised entry carries the observation, the creation time (or now) and the status (or Pending) |
| Loader.Normalize | index.tsx:44-51 | every field but `history` is kept; the history is the single legacy entry exactly when the parsed history is empty and the observation is not, and the parsed history otherwise |
| Loader.NormalizeAll | index.tsx:33-52 | one normalised incident per row, in the same order |
| Loader.NormalizeStoredIdempotent | index.tsx:33-51 | normalising an incident that was stored and loaded again gives the same incident, when the serialiser and parser are inverse on its history |
| Loader.RootApp.constructor | index.tsx:18-21 | no kitchens or incidents, no month selected, year 2025 |
| Loader.RootApp.LoadData | index.tsx:25-61 | a fetch that throws changes nothing; otherwise both collections are replaced (`null` counting as empty) and every row is normalised |
| Loader.RootApp.SelectScope | index.tsx:141-147 | sets the two selectors and nothing else |
| Loader.RootApp.AfterWrite | index.tsx:91-130 | the data is reloaded after every write that does not throw, whatever the write answered |
| Loader.IndexRow | index.tsx:79-86 | counts exactly the incidents that blame the role and are assigned to the name or, for installers only, belong to one of their kitchens; the kitchen total is the name's kitchen count, and the percentage is the count over it (0 without kitchens) |
| Loader.IndexSummary | index.tsx:79-89 | row `j` is the `IndexRow` of the `j`-th roster name: one row per name in roster order, with its kitchen total, at most all incidents, and 0 % without kitchens |
| Loader.IndexRowCountsOnlyBlamed | index.tsx:82 | the row never counts more incidents than those whose cause blames the role |
| Loader.Registered | index.tsx:94 | the posted kitchen is the draft with the generated id |
| Loader.NewIncidentRow | index.tsx:104-110 | the posted row has the generated id, each timestamp from its own clock read, the draft's fields, and its history as text |
| Loader.FormatUpdate | index.tsx:120-125 | a non-empty history is sent as text with `observation` mirroring its last entry; an update without history keeps its own observation; `updatedAt` is always now |
| Loader.HistoryUpdateRoundTrip | index.tsx:117-125 | a non-empty history written through the update handler is the history the next load reads back, and the stored observation is its last text |
| Loader.NewIncidentRoundTrip | index.tsx:101-110 | a created incident loads back with the history, status and timestamps it was created with |
| Scope.ByMonthYear | index.tsx:65-72 | exactly the kitchens installed in the selected month and year, in order; empty selectors keep every kitchen |
| Scope.ScopedIncidents | index.tsx:74-77 | exactly the incidents whose kitchen survived the scope, in order |
| Scope.UnscopedKeepsKnownIncidents | App.tsx:63-75 | with no month or year selected, every incident of a known kitchen is kept |
| AppShell.AsReceived | App.tsx:58 | a fetched row is kept as it comes: only an already-decoded array counts as a history |
| AppShell.App.constructor | App.tsx:17-20 | no kitchens or incidents, no month selected, the current year |
| AppShell.App.LoadAllData | App.tsx:54-59 | each collection is replaced only by a non-null answer; a failed fetch leaves it as it was |
| AppShell.App.SelectScope | App.tsx:124-128 | sets the two selectors and nothing else |
| AppShell.App.AfterWrite | App.tsx:94-114 | the data is reloaded exactly when the write answered with a non-null result: each collection then becomes what `LoadAllData` makes of the fetched answer (the fetched kitchens, every fetched row as received), and stays as it was when that fetch failed |
| AppShell.NewIncidentRecord | App.tsx:99-109 | the posted incident has the generated id, each timestamp from its own clock read, and the draft's fields |
| AppShell.AppRow | App.tsx:77-81 | counts exactly the incidents assigned to the name, and those of their kitchens that blame the role; the kitchen total is the name's kitchen count, and the percentage is the count over it (0 without kitchens) |
| AppShell.AppSummary | App.tsx:77-87 | one row per roster name in roster order, with 0 % for a name without kitchens |
| AppShell.SummaryTotalsPartitionKitchens | App.tsx:78 | with distinct roster names, the kitchen totals add up to the number of scoped kitchens whose professional is on the roster |
| AppShell.IndexCountNeverExceedsApp | App.tsx:79 | every incident index.tsx charges to a professional is charged by App.tsx too, so App.tsx's count is never smaller |
| AppShell.SummaryRulesDiffer | App.tsx:79 | an incident assigned to someone but blamed on another cause counts once in App.tsx's row and not at all in `getSummary`'s |
| AppShell.SellerRatioScenario | App.tsx:77-81 | three kitchens of one seller and one blamed, assigned incident give one incident and a ratio of one in three |
| Dashboard.AffectedIds | components/Dashboard.tsx:50-56 | exactly the kitchen ids named by the incidents (only the open ones when asked) |
| Dashboard.HistoricalAffectedCount | components/Dashboard.tsx:50-51 | the number of kitchens with at least one incident, at most all kitchens |
| Dashboard.ActiveAffectedCount | components/Dashboard.tsx:54-57 | the number of kitchens with at least one open incident, at most all kitchens |
| Dashboard.ActiveWithinHistorical | components/Dashboard.tsx:50-57 | the active count is at most the historical count, which is at most the number of kitchens |
| Dashboard.HistoricalRatio | components/Dashboard.tsx:52 | 0 without kitchens; otherwise the historical count over all kitchens in percent, within [0, 100] |
| Dashboard.PendingRatio | components/Dashboard.tsx:58 | 0 without kitchens; otherwise the active count over all kitchens in percent, within [0, 100] |
| Dashboard.PendingRatioWithinHistorical | components/Dashboard.tsx:48-58 | the pending ratio never exceeds the historical one |
| Dashboard.CauseChartInput | components/Dashboard.tsx:94 | exactly the incidents whose cause is not Other, in order |
| Dashboard.PendingRatioScenario | components/Dashboard.tsx:48-58 | four kitchens, one with an open incident and one with a completed one, give 25 % pending and 50 % historical |
| Drilldown.DrillKitchens | components/FilteredListModal.tsx:16-19 | none without a filter; otherwise exactly the professional's kitchens, in order |
| Drilldown.ActiveForStats | components/FilteredListModal.tsx:21-33 | none without a filter or kitchens; otherwise exactly the open incidents assigned to the professional or blaming their role on one of their kitchens |
| Drilldown.Stats | components/FilteredListModal.tsx:35-44 | all zero without a filter or kitchens; otherwise the kitchen total, the open count and their ratio in percent |
| Drilldown.DrillWithinSummaryRow | components/FilteredListModal.tsx:21-44 | the drill-down has the same kitchen total as the App.tsx summary row and never more incidents |
| Drilldown.KitchenIncidents | components/FilteredListModal.tsx:48-50 | exactly the kitchen's incidents, in order |
| Drilldown.ActiveKitchenIncidents | components/FilteredListModal.tsx:101-117 | exactly the open incidents of the kitchen, in order; their number (the figure on the flag) is the count of such incidents, and the flag shows exactly when one exists |
| Drilldown.VisibleNotes | components/FilteredListModal.tsx:151 | collapsed, only the last note (none for an empty history); expanded, all of them; always a suffix |
| Drilldown.HiddenNotes | components/FilteredListModal.tsx:160-165 | the "more" button appears exactly for more than one note, and with the visible note it accounts for every note |
| TaskBoard.TaskView | components/Tasks.tsx:22-35 | a permutation of exactly the incidents the status and completion filters show, ordered by their kitchen's installation date |
| TaskBoard.TaskViewOrderedByInstallation | components/Tasks.tsx:29-34 | of two listed incidents with known kitchens, the earlier one's kitchen is installed no later |
| TaskBoard.PendingIncidents | components/Tasks.tsx:38 | exactly the incidents that are not completed, in order |
| TaskBoard.WorkLoad | components/Tasks.tsx:40-52 | a permutation of the per-roster rows, each counting the open incidents assigned to that name, busiest first |
| TaskBoard.ActiveKitchenIds | components/Tasks.tsx:176 | exactly the kitchen ids of the open incidents |
| TaskBoard.ActiveKitchensWithinPending | components/Tasks.tsx:176 | the active-kitchens figure never exceeds the number of open incidents |
| TaskBoard.Toggled | components/Tasks.tsx:54-56 | toggling the open tab closes the panel; any other tab opens it |
| TaskBoard.Board.constructor | components/Tasks.tsx:18-20 | the panel is closed, every status is shown, completed incidents are hidden |
| TaskBoard.Board.Listed | components/Tasks.tsx:22-35 | while completed incidents are hidden, none is listed |
| TaskBoard.Board.ToggleTab | components/Tasks.tsx:54-56 | the panel follows the toggle rule; the filters are unchanged |
| TaskBoard.Board.SelectStatus | components/Tasks.tsx:122-123 | sets the status filter and nothing else |
| TaskBoard.Board.ToggleHideCompleted | components/Tasks.tsx:114 | flips the completion filter and nothing else |
| ResolutionSpeed.CompletedIncidents | components/ResolutionSpeedAnalysis.tsx:11 | exactly the completed incidents that carry both timestamps, in order |
| ResolutionSpeed.ResolvedBy | components/ResolutionSpeedAnalysis.tsx:14-16 | exactly the resolved incidents assigned to the name in the role |
| ResolutionSpeed.MeanDays | components/ResolutionSpeedAnalysis.tsx:26-27 | the mean times the count times a day's milliseconds is the total; non-negative for a non-negative total |
| ResolutionSpeed.AverageDays | components/ResolutionSpeedAnalysis.tsx:13-28 | absent exactly when nothing assigned to the name was resolved; otherwise the mean duration in days |
| ResolutionSpeed.AverageNonNegative | components/ResolutionSpeedAnalysis.tsx:20-27 | when no incident is updated before it was created, no average is negative |
| ResolutionSpeed.AveragedRows | components/ResolutionSpeedAnalysis.tsx:30-34 | exactly the roster names that have an average, each with it |
| ResolutionSpeed.SpeedStats | components/ResolutionSpeedAnalysis.tsx:30-42 | a rearrangement of the averaged rows: exactly the roster names that have an average, each with it, fastest first |
| ResolutionSpeed.BarWidth | components/ResolutionSpeedAnalysis.tsx:67 | ten per day, capped at 100, never above 100 and never negative for a non-negative average |
| ResolutionSpeed.ResolutionSpeedScenario | components/ResolutionSpeedAnalysis.tsx:11-42 | one incident resolved in two days gives a single bar of 2.0 days |
| CauseChart.CountCauses | components/IncidentCausePieChart.tsx:63-66 | afterwards every cause has exactly one entry, holding the number of incidents with that cause |
| CauseChart.CauseCountsSumToTotal | components/IncidentCausePieChart.tsx:63-66 | the four cause counts add up to the number of incidents |
| CauseChart.AllSlices | components/IncidentCausePieChart.tsx:73-96 | one slice per cause, in the order of the cause list |
| CauseChart.ChartData | components/IncidentCausePieChart.tsx:59-98 | nothing for no incidents; otherwise, in cause order, exactly the causes that occur, each with its count and its share in percent |
| CauseChart.DropEmptyKeepsPercentSum | components/IncidentCausePieChart.tsx:97 | dropping empty slices leaves the total share unchanged |
| CauseChart.AllSlicesSumTo100 | components/IncidentCausePieChart.tsx:75 | the four slices' shares add up to 100 |
| CauseChart.ChartPercentagesSumTo100 | components/IncidentCausePieChart.tsx:73-97 | the shares of a non-empty chart add up to 100 |
| CauseChart.LabelShownIffShareAbove8 | components/IncidentCausePieChart.tsx:126 | a slice is labelled exactly when more than 2 incidents in 25 have its cause |
| KitchenList.SearchKitchens | components/KitchenList.tsx:19-29 | every kitchen for a trimmed query under two characters; otherwise exactly the kitchens matching the lower-cased query, in order |
| KitchenList.RowWarning | components/KitchenList.tsx:142-165 | the badge figure is the number of the kitchen's open incidents, and it is positive (the badge is shown) exactly when the kitchen has one |
| KitchenList.Contribution | components/KitchenList.tsx:43-61 | a legacy incident adds its one legacy entry; any other adds each history entry, tagged with its id and cause |
| KitchenList.Collected | components/KitchenList.tsx:42-63 | every collected entry comes from one of the incidents |
| KitchenList.CollectedLength | components/KitchenList.tsx:42-63 | the timeline has one entry per legacy incident plus one per history entry of the others |
| KitchenList.KitchenIncidentsOf | components/KitchenList.tsx:39 | all the incidents of the selected kitchen and no other, in their order |
| KitchenList.CollectEntries | components/KitchenList.tsx:40-63 | the loop builds exactly the collected entries of the incidents |
| KitchenList.CollectedFromSelectedKitchen | components/KitchenList.tsx:39-63 | every collected entry comes from an incident of the selected kitchen |
| Seqs.SortStable | components/KitchenList.tsx:65 | the sort behind every ordered list of the model is stable: the elements of any one key keep their input order, as `Array.prototype.sort` does |
| KitchenList.UnifiedTimeline | components/KitchenList.tsx:36-66 | nothing without a selected kitchen; otherwise a permutation of the collected entries of its incidents, of the summed length, newest first |
| KitchenDetail.DetailIncidents | components/KitchenDetailModal.tsx:11-14 | nothing without a kitchen; otherwise a permutation of exactly that kitchen's incidents, newest first |
| KitchenDetail.FreshIncidentHidesLastUpdate | components/KitchenDetailModal.tsx:58 | a newly created incident shows a "last update" line exactly when its two creation clock reads differ |
| IncidentRegistration.LdapSearchResults | components/IncidentRegistrationForm.tsx:35-41 | nothing for under two characters; otherwise exactly the directory records matching the search, in enumeration order |
| IncidentRegistration.KitchenSearch | components/IncidentRegistrationForm.tsx:51-59 | nothing for a trimmed query under two characters; otherwise the first ten matching kitchens, a prefix of all the matches in order, and all of them when there are fewer than ten |
| IncidentRegistration.SubmitIncident | components/IncidentRegistrationForm.tsx:108-138 | rejected exactly without a directory author, a kitchen or a description; otherwise a pending incident whose history holds one note iff the trimmed observation is non-empty, and which names a seller (installer) iff the cause blames that role |
| IncidentRegistration.SubmittedIncidentLoadsBack | components/IncidentRegistrationForm.tsx:119-136 | a submitted incident loads back with exactly the history the form built |
| IncidentRegistration.IncidentForm.constructor | components/IncidentRegistrationForm.tsx:17-26 | every field starts empty, with cause Other |
| IncidentRegistration.IncidentForm.RoleEffect | components/IncidentRegistrationForm.tsx:44-49 | a newly resolved Vendedor author blames the seller and is assigned the incident; nothing else changes |
| IncidentRegistration.IncidentForm.SelectLdap | components/IncidentRegistrationForm.tsx:89-93 | sets the author and the search text, then applies the role effect |
| IncidentRegistration.IncidentForm.TypeLdap | components/IncidentRegistrationForm.tsx:156-161 | the author is the typed text when it is a directory LDAP and is cleared otherwise |
| IncidentRegistration.IncidentForm.TypeQuery | components/IncidentRegistrationForm.tsx:206-210 | typing drops a selected kitchen the text no longer names |
| IncidentRegistration.IncidentForm.SelectKitchen | components/IncidentRegistrationForm.tsx:81-87 | selects the kitchen and fills the seller and installer only where they are unset |
| IncidentRegistration.IncidentForm.Preselect | components/IncidentRegistrationForm.tsx:61-66 | a form opened for an existing kitchen preselects it; otherwise nothing changes |
| IncidentRegistration.IncidentForm.SetDescription | components/IncidentRegistrationForm.tsx:256 | sets the description and nothing else |
| IncidentRegistration.IncidentForm.SetObservation | components/IncidentRegistrationForm.tsx:269 | sets the observation and nothing else |
| IncidentRegistration.IncidentForm.SetCause | components/IncidentRegistrationForm.tsx:238 | sets the cause and nothing else |
| IncidentRegistration.IncidentForm.ResetForm | components/IncidentRegistrationForm.tsx:95-106 | back to the empty form |
| IncidentRegistration.IncidentForm.Submit | components/IncidentRegistrationForm.tsx:108-138 | emits the submission built from the fields, for the kitchen whose order number the search box shows, and resets the form; a rejected submission changes nothing |
| KitchenRegistration.KitchenSubmission | components/KitchenRegistrationForm.tsx:29-49 | rejected exactly without a directory author or with an empty field; otherwise the kitchen under the author's LDAP with every field as typed |
| KitchenRegistration.VendedorKitchenCountsForThem | components/KitchenRegistrationForm.tsx:42-49 | a kitchen a Vendedor registers is counted among that Vendedor's kitchens once stored |
| KitchenRegistration.KitchenForm.constructor | components/KitchenRegistrationForm.tsx:11-18 | empty author and order fields, the first seller and installer, today's date |
| KitchenRegistration.KitchenForm.SetAuthorLdap | components/KitchenRegistrationForm.tsx:20-27 | a newly resolved Vendedor author forces the seller to their own name |
| KitchenRegistration.KitchenForm.SetSeller | components/KitchenRegistrationForm.tsx:133-134 | the seller changes only while the author is not a Vendedor |
| KitchenRegistration.KitchenForm.SetOrderNumber | components/KitchenRegistrationForm.tsx:94 | sets the order number and nothing else |
| KitchenRegistration.KitchenForm.SetClientName | components/KitchenRegistrationForm.tsx:119 | sets the client and nothing else |
| KitchenRegistration.KitchenForm.SetInstaller | components/KitchenRegistrationForm.tsx:154 | sets the installer and nothing else |
| KitchenRegistration.KitchenForm.SetInstallationDate | components/KitchenRegistrationForm.tsx:106 | sets the date and nothing else |
| KitchenRegistration.KitchenForm.Submit | components/KitchenRegistrationForm.tsx:29-55 | emits the submission; on success clears the order number and client and keeps the rest; a Vendedor's kitchen is always under their own name |
| TaskNotes.DraftOf | components/TaskList.tsx:22 | the draft typed for the incident, or none if nothing was typed |
| TaskNotes.NoteAuthor | components/TaskList.tsx:23-24 | a user exactly when the trimmed LDAP is in the directory, and it is that record |
| TaskNotes.NotePatch | components/TaskList.tsx:21-46 | rejected exactly for a blank note or an unknown author; otherwise the old history plus exactly one entry with the trimmed text, the current status and the author, and only `updatedAt` beside it |
| TaskNotes.NoteAccepted | components/TaskList.tsx:26-41 | a non-blank note signed by a directory user is always accepted, as the old history plus its one entry |
| TaskNotes.StatusPatch | components/TaskList.tsx:52-57 | only the new status and the timestamp are sent |
| TaskNotes.LatestNote | components/TaskList.tsx:74-75 | the last history entry, or none exactly for an empty history |
| TaskNotes.NoteDrafts.constructor | components/TaskList.tsx:13-14 | no drafts |
| TaskNotes.NoteDrafts.TypeNote | components/TaskList.tsx:150 | updates that incident's note draft only |
| TaskNotes.NoteDrafts.TypeLdap | components/TaskList.tsx:143 | updates that incident's LDAP draft only |
| TaskNotes.NoteDrafts.AddObservation | components/TaskList.tsx:21-50 | sends the note update; on success clears that incident's two drafts and no other; a rejected add changes nothing |
| TaskNotes.NoteSurvivesReload | components/TaskList.tsx:31-46 | after the store and reload, the history is the old one plus exactly the new note, and the observation mirrors its text |
| TaskNotes.StatusUpdateKeepsHistory | components/TaskList.tsx:52-57 | a status update never touches the stored history or observation |
| TaskNotes.ConstructorNoteRejected | components/TaskList.tsx:24-29 | a note signed `constructor` is rejected, although the source's lookup resolves that name |

## Left out

- Network I/O is a parameter of the model. This covers `fetch`, `Promise.all`, `response.ok`, the POST bodies and the backend script. `Loader.ApplyUpdate` stands for the backend's record update: each field present in the payload overwrites the stored one. The backend itself is not part of this model.
- `uuidv4()` and the clock are parameters. Each `new Date()` read that stamps a new incident is a parameter of its own. A note added in the task list takes one instant for both its entry `date` and `updatedAt` (TaskNotes.NotePatch), where TaskList.tsx:36 and :45 read the clock separately and index.tsx:125 reads it once more to overwrite `updatedAt`.
- `JSON.parse` and `JSON.stringify` are parameters. The round-trip lemmas require that the parser reads back what the serialiser wrote.
- `toFixed`, `toLocaleDateString` and other number and date formatting are not modelled.
- Date parsing and time zones are not modelled. An installation date is a calendar date. The month/year selectors are integers rather than zero-padded strings.
- Pie-chart geometry (angles, arcs, label positions) and colours are not modelled.
- `toLowerCase` is a parameter. `trim` strips the white-space and line-terminator characters of ECMAScript.
- Strings are sequences of Unicode characters, while `.length` counts UTF-16 code units. A character outside the Basic Multilingual Plane (an emoji, say) counts once in the model and twice in the source.
- UI-only state is not modelled: `showResults`, the expanded-row ids, hover, `isLoading`, `error`, `currentTab` and the click-outside listeners. `alert` calls are the rejections the model returns as `None`.
- components/MonthYearFilter.tsx and components/Navigation.tsx contain only markup.
- Loader.Normalize: a row with no `status` gets Pending. The source keeps it undefined. Every later comparison with Completed treats it as not completed, which the model matches. Two places differ: with the Pending filter selected, components/Tasks.tsx:25 hides such an incident while `TaskBoard.TaskView` lists it; and a note added to it at components/TaskList.tsx:37 records an undefined `statusAtTime`, where `TaskNotes.NotePatch` records Pending.
- Loader.NormalizeAll: one instant stands for the clock read at index.tsx:48. The source reads the clock again for each row that lacks `createdAt`.
- TaskBoard.TaskView: an incident whose kitchen is unknown sorts with key 0. The source's comparator returns 0 for any pair involving such an incident, which is not a consistent order. The ordering lemma covers only incidents whose kitchens are known.
- KitchenList.UnifiedTimeline: a legacy entry of an incident with no `createdAt` is dated 0. The source would build an invalid date, whose place in the sort is undefined.
- KitchenDetail.DetailIncidents: an incident with no `createdAt` sorts as 0. In the source it yields NaN in the comparator.
- AppShell.AsReceived: a row with no `status` gets Pending, as in `Loader.Normalize`; the source keeps it undefined, with the same two consequences.
- AppShell.AsReceived: a history that reaches App.tsx as a JSON string is treated as absent. The components then treat it as empty (`Array.isArray` fails).
- SubmitIncident (IncidentRegistration.SubmitIncident): uses the corrected lookup of the Findings row (`Domain.Lookup`). An LDAP naming a member every object inherits (`constructor`, `__proto__`, `toString` and the rest of `Domain.INHERITED_MEMBERS`) is rejected here, while the source accepts it and stores the member's `name` (`Object`, the method's own name, or undefined for `__proto__`) as the note's author.
- TypeLdap (IncidentRegistration.IncidentForm.TypeLdap): uses the corrected lookup of the Findings row (`Domain.Lookup`). An LDAP naming a member every object inherits (`constructor`, `__proto__`, `toString` and the rest of `Domain.INHERITED_MEMBERS`) is rejected here, while the source accepts it as the author.
- Submit (IncidentRegistration.IncidentForm.Submit): uses the corrected lookup of the Findings row (`Domain.Lookup`). An LDAP naming a member every object inherits (`constructor`, `__proto__`, `toString` and the rest of `Domain.INHERITED_MEMBERS`) is rejected here, while the source accepts it, through `SubmitIncident`.
- KitchenSubmission (KitchenRegistration.KitchenSubmission): uses the corrected lookup of the Findings row (`Domain.Lookup`). An LDAP naming a member every object inherits (`constructor`, `__proto__`, `toString` and the rest of `Domain.INHERITED_MEMBERS`) is rejected here, while the source accepts it and registers the kitchen under that LDAP.
- Submit (KitchenRegistration.KitchenForm.Submit): uses the corrected lookup of the Findings row (`Domain.Lookup`). An LDAP naming a member every object inherits (`constructor`, `__proto__`, `toString` and the rest of `Domain.INHERITED_MEMBERS`) is rejected here, while the source accepts it, through `KitchenSubmission`.
- NoteAuthor (TaskNotes.NoteAuthor): uses the corrected lookup of the Findings row (`Domain.Lookup`). An LDAP naming a member every object inherits (`constructor`, `__proto__`, `toString` and the rest of `Domain.INHERITED_MEMBERS`) is rejected here, while the source accepts it as a user.
- NotePatch (TaskNotes.NotePatch): uses the corrected lookup of the Findings row (`Domain.Lookup`). An LDAP naming a member every object inherits (`constructor`, `__proto__`, `toString` and the rest of `Domain.INHERITED_MEMBERS`) is rejected here, while the source accepts it and appends a note whose author name is the member's `name`.
- AddObservation (TaskNotes.NoteDrafts.AddObservation): uses the corrected lookup of the Findings row (`Domain.Lookup`). An LDAP naming a member every object inherits (`constructor`, `__proto__`, `toString` and the rest of `Domain.INHERITED_MEMBERS`) is rejected here, while the source accepts it, through `NotePatch`.
- SearchKitchens (KitchenList.SearchKitchens): the two-character threshold counts characters, not UTF-16 code units (see above).
- KitchenSearch (IncidentRegistration.KitchenSearch): the two-character threshold counts characters, not UTF-16 code units.
- LdapSearchResults (IncidentRegistration.LdapSearchResults): the two-character threshold counts characters, not UTF-16 code units.
- IncidentRegistration.IncidentForm.RoleEffect: the effect runs when the resolved user changes. React runs it when the `authorData` object changes, which is the same thing for the directory's fixed records.

## Findings

| source | as written | input that shows it | evidently intended | confidence | as-written member | corrected member |
|---|---|---|---|---|---|---|
| components/TaskList.tsx:24 | `USER_LDAP_MAP[ldap]` on a plain object also finds inherited members, so the directory check accepts them. The same lookup is at components/IncidentRegistrationForm.tsx:32 and components/KitchenRegistrationForm.tsx:20 | the LDAP `constructor`, which resolves to the `Object` function (name `Object`), or `__proto__`, which resolves to `Object.prototype` | only the directory's own LDAPs are users | not executed | Domain.LookupAsWritten | Domain.Lookup |
