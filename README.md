# Nexus CRM core, modelled in Dafny

Nexus CRM is a small single-page sales CRM. This project models its core:

- the record shapes: contacts, deals, tasks, activity-log entries, notifications and the user profile;
- the browser-storage layer that seeds, reads and rewrites those records;
- the in-memory state controller whose handlers the screens call;
- the derived views: dashboard metrics and chart data, the kanban board of deals, the filtered audit log, the avatar initials;
- the two form state machines: adding a task and editing the profile;
- the deterministic part of the AI assistant service: cleaning a reply and choosing fallback texts.

Modules follow the program's files:

| Dafny file | module | models |
|---|---|---|
| types.dfy | `Types` | `types.ts`, plus `Notification` and `UserProfile` as the seed data in `constants.ts` shapes them |
| seqs.dfy | `Seqs` | the by-id list operations shared by the store and the controller (`findIndex`, `map`, `filter`) |
| strings.dfy | `Strings` | `split`, `toLowerCase`, `includes`, `trim` and `replace(/…/g, '')` on strings |
| db.dfy | `Db` | `services/db.ts`: a `Store` class over a map from slots to stored values |
| app.dfy | `AppState` | `App.tsx`: an `App` class whose fields are the controller's state slots |
| pipeline.dfy | `Pipeline` | the per-stage partition of a deal list that the dashboard and the board share |
| dashboard.dfy | `Dashboard` | `components/Dashboard.tsx` |
| deals.dfy | `DealsBoard` | `components/Deals.tsx` |
| audit_log.dfy | `AuditLog` | `components/AuditLog.tsx` |
| tasks.dfy | `TaskList` | `components/Tasks.tsx`: a `TaskForm` class |
| profile.dfy | `ProfileScreen` | `components/Profile.tsx`: a `ProfileForm` class and the pure record updates |
| gemini.dfy | `Gemini` | `services/geminiService.ts`, minus the network call |

How the model handles the program's environment:

- **Storage.** A map from the `Slot` datatype (one constructor per storage key) to the parsed value; `KeyName` gives each slot's key string. JSON serialisation is the identity.
- **Inputs.** The seed data, timestamp-based ids, today's date, the AI reply and the JSON parser are parameters.

Where the documentation and the code disagree, the model follows the code:

- **`init` reseeds only absent slots.** It tests `!localStorage.getItem(key)`. A stored empty list is the text `"[]"`, which is truthy, so it is kept. The store never writes an empty string.
- **`markAllRead` always writes.** When the notifications slot is missing, it ends up holding an empty list.
- **The controller never talks to the store.** It keeps its own copies seeded from the mock data. Its handlers replace every record with a matching id (`map`), where the store replaces only the first (`findIndex`). The two agree while ids are unique (`AppState.ControllerAgreesWithStore`). No handler writes an activity-log entry.
- **The tab type gains `ProfileTab`.** The declared navigation type has six tags and no `'profile'`, but the controller switches to `'profile'`.
- **The settings tab is never reached.** It has no sidebar entry, so `AppState.HeaderTitle` gives it no title. No handler selects it either. `setActiveTab` is called only with `'deals'` (App.tsx:56), a sidebar entry's id (App.tsx:123, 285) and `'profile'` (App.tsx:247). The two Settings buttons (App.tsx:137-140, 255-258) have no click handler. So `AppState.App.SelectTab` accepts only the tabs of sidebar entries, and `AppState.NavTitle` shows that the header then gives that entry's caption.

## Model

| member | source | states |
|---|---|---|
| Types.AllStagesEnumerates | types.ts:3-10 | the stage list has six entries, all different, covers every stage, and the labels tell stages apart |
| Types.StageIndex | types.ts:3-10 | each stage has a position in the declared order, and the list holds that stage there |
| Types.ActivityTagInjective | types.ts:44 | the eight activity tags are pairwise different strings |
| Types.Toggled | services/db.ts:99 | the `completed` flag is flipped, the id is kept, and nothing else changes |
| Types.MarkedRead | services/db.ts:127 | `read` becomes true, the id is kept, and nothing else changes |
| Types.AllMarkedRead | services/db.ts:133 | same length; every entry is the original with `read` set |
| Types.AllMarkedReadIdempotent | services/db.ts:131-135 | marking all read twice is marking all read once |
| Seqs.FirstIndex | services/db.ts:44 | -1 exactly when no element has the id; otherwise the index of the first match |
| Seqs.UpdateFirstByIndex | services/db.ts:44-47 | overwriting the element at `findIndex` equals the "change the first match" reference definition, and with no match it leaves the list as is |
| Seqs.UpdateFirstFrame | services/db.ts:41-49 | changing the first match keeps the length, changes only that index, and changes nothing without a match |
| Seqs.ReplaceFirstSpec | services/db.ts:63-71 | `update(x)` puts `x` at the first index with `x`'s id and leaves every other index unchanged |
| Seqs.UpdateAll | App.tsx:34 | same length; every element with the id is changed by `f`, every other element is kept |
| Seqs.ReplaceAllSpec | App.tsx:37-39 | every element with the id becomes the update, every other element is kept, and replacing again changes nothing |
| Seqs.UpdateFirstIsUpdateAll | App.tsx:33-39 | with unique ids, changing the first match and changing every match give the same list |
| Seqs.UpdateAllTwice | App.tsx:59-61 | an involutive change applied twice to every match restores the list |
| Seqs.FilterIsSubseq | components/AuditLog.tsx:13 | a filter keeps elements in their original order |
| Seqs.FilterCounts | components/Dashboard.tsx:30 | a filter keeps each passing element exactly as often as the list holds it, and no other element |
| Seqs.FilterPartition | components/Dashboard.tsx:21 | a predicate and its negation split a list: the lengths add up and the multisets add up |
| Seqs.FilterUpdateAllShrinks | App.tsx:77-79 | a change that never creates a match of `p` never lengthens the filtered list, and shortens it when an element it un-matches is present |
| Seqs.Filter | components/AuditLog.tsx:13 | no longer than the list; an element is kept exactly when it is in the list and passes the predicate |
| Strings.ContainsAt | components/AuditLog.tsx:15-17 | `includes` holds exactly when the pattern starts at some position of the string |
| Strings.Split | components/Profile.tsx:54 | `split(' ')` gives at least one part, and no part holds the separator |
| Strings.SplitFree | components/Profile.tsx:54 | a string without the separator splits into itself alone |
| Strings.SplitAfterSep | components/Dashboard.tsx:25 | the text before the first separator is the first part, followed by the split of the rest |
| Strings.Lower | components/AuditLog.tsx:15-17 | `toLowerCase` keeps the length and lower-cases each character in place |
| Strings.RemoveAll | services/geminiService.ts:68 | removing every occurrence never lengthens the text |
| Strings.RemoveAllAbsent | services/geminiService.ts:68 | with no occurrence, nothing is removed |
| Strings.RemoveAllLeading | services/geminiService.ts:68 | an occurrence at the front is dropped and the scan resumes right after it |
| Strings.RemoveAllSkips | services/geminiService.ts:68 | text that never holds the pattern's first character is kept as it is |
| Strings.RemoveAllTrailing | services/geminiService.ts:68 | such text followed by one occurrence leaves just the text |
| Strings.RemoveAllWrapped | services/geminiService.ts:68 | such text between two occurrences leaves just the text |
| Strings.TrimSlice | services/geminiService.ts:68 | `trim` returns a slice that cuts only white space off either end, and the result begins and ends with non-space |
| Strings.RemoveFencesLeavesNone | services/geminiService.ts:68 | after removing every "```", none is left |
| Db.KeyNamesDistinct | services/db.ts:8-15 | the six storage keys are different strings |
| Db.SeedValue | services/db.ts:27-32 | each slot's seed is of the kind that slot holds |
| Db.Seeded | services/db.ts:25-34 | after `init`, every slot is present; a present slot keeps its value, and a missing one gets its seed |
| Db.SeededBySteps | services/db.ts:27-32 | the six "seed if missing" lines in order meet the specification of `init` |
| Db.SeededIdempotent | services/db.ts:25-34 | a second `init` changes nothing |
| Db.SeededIsComplete | services/db.ts:25-34 | after `init` all six slots exist |
| Db.SeededWellTyped | services/db.ts:25-34 | seeding keeps every slot holding the right kind of value |
| Db.Store.Init | services/db.ts:25-34 | the new slots are the `Seeded` image of the old ones, and stay well typed |
| Db.Store.SeedIfMissing | services/db.ts:27 | one slot gets its seed when it is missing; otherwise nothing changes |
| Db.Store.Contacts | services/db.ts:37-40 | the stored contact list, or the empty list when the slot is missing |
| Db.Store.Deals | services/db.ts:53-56 | the stored deal list, or the empty list |
| Db.Store.Tasks | services/db.ts:75-78 | the stored task list, or the empty list |
| Db.Store.Activities | services/db.ts:106-109 | the stored log, or the empty list |
| Db.Store.Notifications | services/db.ts:119-122 | the stored notifications, or the empty list |
| Db.Store.User | services/db.ts:139-142 | the stored profile, or the seed profile when the slot is missing |
| Db.Store.UpdateContact | services/db.ts:41-49 | with no matching id nothing is written; otherwise the first match is replaced and no other slot changes |
| Db.Store.AddDeal | services/db.ts:57-62 | the deal list becomes `[d] + old` and no other slot changes |
| Db.Store.UpdateDeal | services/db.ts:63-71 | with no matching id nothing is written; otherwise the first match is replaced |
| Db.Store.AddTask | services/db.ts:79-84 | the task list becomes `[t] + old` |
| Db.Store.UpdateTask | services/db.ts:85-93 | with no matching id nothing is written; otherwise the first match is replaced |
| Db.Store.ToggleTask | services/db.ts:94-102 | with no matching id nothing is written; otherwise the first match is toggled |
| Db.Store.AddActivity | services/db.ts:110-115 | the log becomes `[a] + old` |
| Db.Store.MarkRead | services/db.ts:123-130 | with no matching id nothing is written; otherwise the first match is marked read |
| Db.Store.MarkAllRead | services/db.ts:131-135 | the notification slot is written with every entry marked read, even when it was missing |
| Db.Store.UpdateUser | services/db.ts:143-146 | the profile slot holds the new profile and no other slot changes |
| Db.ToggleTwice | services/db.ts:94-102 | toggling the same id twice restores the task list |
| Db.ToggleFirstOnly | services/db.ts:97-99 | toggling flips `completed` on the first match only and touches nothing else |
| Db.MarkReadSpec | services/db.ts:123-130 | `markRead` sets `read` on the first match only, keeps the length, and is idempotent |
| Db.MarkAllReadSpec | services/db.ts:131-135 | every entry is read and otherwise unchanged, the length is kept, and a second call changes nothing |
| AppState.FindLabel | App.tsx:154 | no label exactly when no entry has the tab; a label found is the caption of the first entry for that tab |
| AppState.HeaderTitle | App.tsx:154 | "My Profile" on the profile tab, no title exactly on the settings tab, and otherwise the tab's sidebar label |
| AppState.NavItemsShape | App.tsx:101-107 | five sidebar entries for five different tabs, neither settings nor profile among them |
| AppState.NavTitle | App.tsx:154 | the header title of a sidebar entry's tab is that entry's caption |
| AppState.UnreadCount | App.tsx:30 | at most the number of notifications, and zero exactly when every notification is read |
| AppState.App.constructor | App.tsx:14-23 | the first state: the dashboard tab and the mock data in every slot |
| AppState.App.Unread | App.tsx:30 | the length of the unread filter of the current notifications: at most their number, and zero exactly when every one is read |
| AppState.App.HandleUpdateContact | App.tsx:33-35 | every contact with the id is replaced; nothing else in the state changes |
| AppState.App.HandleUpdateDeal | App.tsx:37-39 | every deal with the id is replaced; nothing else changes |
| AppState.App.HandleUpdateProfile | App.tsx:41-43 | the current user becomes the saved profile |
| AppState.App.HandleAddDeal | App.tsx:45-57 | exactly one new deal goes on top of the list, and the deals tab is shown |
| AppState.NewDeal | App.tsx:46-54 | the new deal is titled 'New Deal Opportunity', with amount 0, stage New Lead and probability 10; its contact is the first contact, or '' when there is none |
| AppState.App.HandleToggleTask | App.tsx:59-61 | every task with the id has `completed` flipped; nothing else changes |
| AppState.App.HandleAddTask | App.tsx:63-71 | one open task with the given title and date and no relation goes on top of the list |
| AppState.App.HandleMarkAllRead | App.tsx:73-75 | every notification is marked read, and the unread count is zero |
| AppState.App.HandleNotificationClick | App.tsx:77-79 | the notifications with the id are marked read, and the unread count does not grow |
| AppState.App.SelectTab | App.tsx:123 | only a sidebar entry's tab can be clicked; it becomes active and nothing else changes |
| AppState.App.OpenProfile | App.tsx:246-249 | the profile tab becomes active |
| AppState.MarkAllReadClearsUnread | App.tsx:73-75 | after marking all read nothing is unread, and doing it again changes nothing |
| AppState.ClickNeverRaisesUnread | App.tsx:77-79 | a click never raises the unread count, and clicking an unread notification lowers it |
| AppState.ToggleTaskTwice | App.tsx:59-61 | toggling the same id twice restores the task list |
| AppState.ControllerAgreesWithStore | App.tsx:33-39 | with unique ids, the controller's four by-id handlers compute what the store's first-match operations compute |
| AppState.HandlersKeepIdsUnique | App.tsx:33-79 | replacing a contact or a deal, toggling a task and marking a notification read keep every id, so unique ids stay unique |
| Pipeline.DealsInStage | components/Dashboard.tsx:26 | the deals of one stage: no more than all deals, and a deal is in it exactly when it is in the list with that stage |
| Pipeline.DealsInStageOrdered | components/Deals.tsx:56 | the deals of a stage keep the list's order |
| Pipeline.BoardIsPermutation | components/Deals.tsx:46-56 | the six columns laid end to end are a rearrangement of the deal list |
| Pipeline.BoardKeepsSum | components/Dashboard.tsx:24-28 | the columns' amounts add up to the list's amount |
| Pipeline.BoardPartitions | components/Deals.tsx:46-56 | the board is a permutation of the list, as long as it, with the same total amount |
| Pipeline.BoardSum | components/Dashboard.tsx:27 | the board's amount is the sum of the six column amounts |
| Pipeline.EachDealInOneColumn | components/Deals.tsx:56 | a deal is in the column of its stage and in no other |
| Pipeline.SumAmountsAppend | components/Dashboard.tsx:18 | the sum over a concatenation is the sum of the sums |
| Pipeline.SumAmountsFilterBounded | components/Dashboard.tsx:19 | with no negative amounts, a filtered sum lies between zero and the full sum |
| Dashboard.TotalRevenue | components/Dashboard.tsx:18 | the total pipeline equals the sum over the board's columns |
| Dashboard.OpenDealsCount | components/Dashboard.tsx:20 | no more open deals than deals |
| Dashboard.PendingTasksCount | components/Dashboard.tsx:21 | the pending and the completed tasks together are all the tasks |
| Dashboard.DealsByStage | components/Dashboard.tsx:24-28 | one chart entry per stage |
| Dashboard.SalesForecast | components/Dashboard.tsx:30 | at most six forecast entries |
| Dashboard.ShortNames | components/Dashboard.tsx:25 | each stage's short name is its label's first word, so both closed stages are named "Closed" |
| Dashboard.ChartNames | components/Dashboard.tsx:24-28 | the chart entries are named "New", "Qualified", "Proposal", "Negotiation", "Closed", "Closed", in that order |
| Dashboard.OneWordName | components/Dashboard.tsx:25 | a one-word label is its own chart name |
| Dashboard.FirstWord | components/Dashboard.tsx:25 | the first part of splitting "a b" at spaces is `a` |
| Dashboard.DealsByStageEntries | components/Dashboard.tsx:24-28 | entry `i` is named with the short name of stage `i` and counts and sums that stage's deals, in enum order |
| Dashboard.SixColumnTotals | components/Dashboard.tsx:24-28 | the chart's count and amount totals are the sums over the six stage columns |
| Dashboard.DealsByStageTotals | components/Dashboard.tsx:24-28 | the counts add up to the number of deals, and the amounts to the total pipeline |
| Dashboard.SalesForecastSpec | components/Dashboard.tsx:30 | the forecast is the order-preserving subsequence of entries with a positive amount, each kept as often as it occurs |
| Dashboard.MetricsAgreeWithColumns | components/Dashboard.tsx:19-20 | the open deals are the four open columns; the won revenue is the total less the other five columns |
| Dashboard.OpenCount | components/Dashboard.tsx:20 | the open deals number exactly the deals in the four open stages |
| Dashboard.WonRevenueBounded | components/Dashboard.tsx:18-19 | with no negative amounts, the won revenue lies between zero and the total pipeline |
| DealsBoard.GetContact | components/Deals.tsx:17 | none exactly when no contact has the id; otherwise the first contact with it |
| DealsBoard.Column | components/Deals.tsx:56 | the column is an ordered subsequence holding exactly the deals of its stage |
| DealsBoard.Badge | components/Deals.tsx:50-52 | the badge is the column's length |
| DealsBoard.Columns | components/Deals.tsx:29 | six columns in enum order |
| DealsBoard.EveryDealInExactlyOneColumn | components/Deals.tsx:46-56 | every deal is in the column of its stage and in no other |
| DealsBoard.ColumnsPartitionDeals | components/Deals.tsx:46-56 | the badges add up to the number of deals, and the columns together are a rearrangement of the deals |
| DealsBoard.ProbabilityBucket | components/Deals.tsx:81 | green exactly above 70, amber exactly in (40, 70], red exactly at 40 or below |
| DealsBoard.BucketMonotone | components/Deals.tsx:81 | a higher probability never gets a worse colour |
| DealsBoard.BucketClassesDistinct | components/Deals.tsx:81 | the three buckets get three different bar classes |
| DealsBoard.HandleAnalyzeDeal | components/Deals.tsx:19-27 | without the deal's contact the cache is unchanged; otherwise the analysis goes under the deal's id and every other entry is kept |
| AuditLog.FilteredActivities | components/AuditLog.tsx:13-22 | an entry is shown exactly when it matches the lower-cased search in action, details or user, and matches the type; a matching entry is shown as often as the log holds it |
| AuditLog.FilteredIsSubseq | components/AuditLog.tsx:13 | the result keeps the log's order and is no longer than it |
| AuditLog.UnfilteredShowsAll | components/AuditLog.tsx:14-19 | an empty search with type 'all' shows the whole log |
| AuditLog.TypeFilterSound | components/AuditLog.tsx:19 | with one type selected, every entry shown has it; a value that is no tag shows nothing |
| AuditLog.TypeColorsDistinct | components/AuditLog.tsx:24-32 | create, delete, update and system each get their own class; every other tag gets the default one |
| TaskList.TaskForm.constructor | components/Tasks.tsx:12-14 | the form starts closed and empty |
| TaskList.TaskForm.Open | components/Tasks.tsx:30 | the form opens and keeps what was typed |
| TaskList.TaskForm.EditTitle | components/Tasks.tsx:45 | the title becomes the typed text |
| TaskList.TaskForm.EditDate | components/Tasks.tsx:52 | the date becomes the picked date |
| TaskList.TaskForm.Cancel | components/Tasks.tsx:56 | only closes the form; title and date are kept |
| TaskList.TaskForm.Submit | components/Tasks.tsx:16-23 | an empty title adds nothing and changes nothing; otherwise exactly one task with the typed date, or today, is added, and the form is cleared and closed |
| ProfileScreen.WithField | components/Profile.tsx:16-18 | the edited field gets the value and every other field is kept |
| ProfileScreen.WithFieldLaws | components/Profile.tsx:16-18 | two edits of one field keep the second, and writing back a field's own value changes nothing |
| ProfileScreen.TogglePreference | components/Profile.tsx:20-28 | the chosen switch flips and the other two are kept |
| ProfileScreen.ToggleTwice | components/Profile.tsx:20-28 | flipping a switch twice restores the preferences |
| ProfileScreen.WithPreferenceToggled | components/Profile.tsx:20-28 | only the preferences of the profile change |
| ProfileScreen.ProfileForm.constructor | components/Profile.tsx:12-14 | the form starts as a copy of the profile, not saving, with no success message |
| ProfileScreen.ProfileForm.Edit | components/Profile.tsx:16-18 | the form data gets the changed field |
| ProfileScreen.ProfileForm.TogglePref | components/Profile.tsx:20-28 | the form data gets the flipped switch |
| ProfileScreen.ProfileForm.Cancel | components/Profile.tsx:169 | the form data goes back to the given profile |
| ProfileScreen.ProfileForm.Submit | components/Profile.tsx:30-33 | a save starts, capturing the current form data; while one is running a submit does nothing (the button is disabled, components/Profile.tsx:176) |
| ProfileScreen.ProfileForm.Commit | components/Profile.tsx:34-37 | the captured form data is handed on, the save ends and the success message shows |
| ProfileScreen.ProfileForm.HideSuccess | components/Profile.tsx:38 | the success message goes away |
| ProfileScreen.SaveForm | components/Profile.tsx:30-38 | a save with no edits in between hands on the form data as it was |
| Strings.FirstChar | components/Profile.tsx:54 | `charAt(0)`: empty for an empty string, otherwise exactly the first character |
| ProfileScreen.Initials | components/Profile.tsx:54 | at most two characters; empty exactly for an empty name; the first is the name's first; the second is never a space |
| ProfileScreen.InitialsFromName | components/Profile.tsx:54 | every initial is a character of the name |
| ProfileScreen.OneWordInitials | components/Profile.tsx:54 | a name without a space gives its first character only |
| ProfileScreen.TwoWordInitials | components/Profile.tsx:54 | "First Rest" gives the first letter of each word |
| ProfileScreen.Avatar | components/Profile.tsx:51-55 | a non-empty avatar url shows as a picture, otherwise the initials of the name |
| Gemini.Clean | services/geminiService.ts:68 | cleaning never lengthens the text |
| Gemini.CleanSpec | services/geminiService.ts:68 | the cleaned text holds no "```" and has no white space at either end |
| Gemini.CleanKeepsPlainText | services/geminiService.ts:68 | a text with no "```" and no surrounding white space comes back unchanged, so single or double backticks survive |
| Gemini.JsonFencePass | services/geminiService.ts:68 | the first replace drops only the opening "```json" of a fenced block |
| Gemini.CleanJsonFenced | services/geminiService.ts:68 | a reply wrapped in "```json" … "```" gives the text between the fences, trimmed, when that text holds no backtick |
| Gemini.NoJsonFenceInBareHead | services/geminiService.ts:68 | a bare "```" block whose text does not start with "json" has no "```json" in its first three positions |
| Gemini.BareFencePass | services/geminiService.ts:68 | the first replace leaves such a bare block unchanged |
| Gemini.CleanBareFenced | services/geminiService.ts:68 | a reply wrapped in "```" … "```" gives the text between the fences, trimmed, when that text holds no backtick and does not start with "json" |
| Gemini.CleanIdempotent | services/geminiService.ts:68 | cleaning twice is cleaning once |
| Gemini.AnalyzeDeal | services/geminiService.ts:64-75 | an empty reply, a failure or an unparsable text gives exactly the fixed fallback; otherwise the parsed object |
| Gemini.EmailDraft | services/geminiService.ts:30-33 | the reply text if non-empty, the "unable" text for an empty one, the API-key error text on failure; never empty |
| Gemini.ContactSummary | services/geminiService.ts:97-99 | the reply text if non-empty, "No summary available." for an empty one, the error text on failure; never empty |

## Left out

- Browser storage I/O, `JSON.stringify`/`JSON.parse` and the simulated latency (`delay`): storage is a map of parsed values, and every operation is synchronous.
- A storage slot holding the empty string: the store never writes one, since serialisation never yields `""`, so `init` is modelled as reseeding absent slots only.
- The AI client, model name and prompt texts: the service's reply is a parameter (`Failed` or `Answered(text)`, an undefined text being `""`). `JSON.parse` of the cleaned text is a parameter `parse`, returning an `Analysis` or nothing. A parsed object of a different shape is not modelled.
- `Date.now()` ids and `toISOString` dates: passed in as `id` and `today`. Nothing makes ids unique, so the lemmas that need unique ids assume them.
- Rendering: JSX, styling, icons, the recharts charts and the click-outside listener. The openers of the mobile menu, the notification drop-down and the profile menu are left out too, being pure visibility toggles.
- `toLocaleString` number formatting.
- Deal amounts are integers, not floating-point numbers.
- `toLowerCase` and `trim`: only ASCII letters are lower-cased, and only ASCII white space is trimmed.
- The contacts screen (`components/Contacts.tsx`): it is list and slide-over UI plus an AI call, and never changes the controller's state.
- The seed data itself (`constants.ts`): it is the parameter `Seed`, not its concrete records.
- The `setTimeout` delays of the profile save and of the success message: save is two steps, `Submit` then `Commit`, and the message is hidden by an explicit `HideSuccess`.
- The analysing spinner of a deal card (`analyzingDealId`): the model keeps only the analysis cache.
- The form keeping its own copy: the profile form copies its `user` only when it is created, as `useState(user)` does. A later change of the profile outside the form does not reach the form data.
- Dashboard.WonRevenue: carries no contract of its own; its value is stated through Dashboard.MetricsAgreeWithColumns and Dashboard.WonRevenueBounded.
- Dashboard.ShortName, Dashboard.Summarise: carry no contract of their own; they are stated through Dashboard.ShortNames, Dashboard.DealsByStageEntries (name, count and amount of each entry) and Dashboard.ChartNames.
- AuditLog.TypeColor: carries no contract of its own; its classes are stated through AuditLog.TypeColorsDistinct.
- AuditLog.MatchesSearch: carries no contract of its own; what it accepts is stated through AuditLog.FilteredActivities and AuditLog.UnfilteredShowsAll.
- DealsBoard.BucketClass: carries no contract of its own; it is stated through DealsBoard.BucketClassesDistinct.
- Pipeline.SumAmounts: carries no contract of its own; it is stated through Pipeline.SumAmountsAppend, Pipeline.SumAmountsFilterBounded and Pipeline.BoardKeepsSum.
- Strings.Trim: carries no contract of its own; it is stated through Strings.TrimSlice and Strings.TrimTrimmed.
- Strings.Contains: carries no contract of its own; it is stated through Strings.ContainsAt.
- Strings are sequences of Unicode scalar values, while JavaScript strings are UTF-16 code units. So `charAt(0)` in ProfileScreen.Initials (components/Profile.tsx:54) takes a whole character where JavaScript would take half of a surrogate pair.
- The `console.error` logging in the AI service's error paths (services/geminiService.ts:32, 71): it has no effect on the returned value.
- AuditLog.MatchesType: carries no contract of its own; it is stated through AuditLog.FilteredActivities, AuditLog.TypeFilterSound and AuditLog.UnfilteredShowsAll.
- TaskList.DueDateOrToday: its contract only spells out the `date || today` default; what it means for a new task is stated through TaskList.TaskForm.Submit.
- Dashboard.IsOpen: carries no contract of its own; it is stated through Dashboard.OpenCount and Dashboard.MetricsAgreeWithColumns.
- Dashboard.IsPending, Dashboard.IsDone: carry no contract of their own; they are stated through Dashboard.PendingTasksCount.
