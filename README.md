# SettingSchedule sites core in Dafny

This project models the client-side "sites" logic of SettingSchedule. A site is a project with a timeline of tasks and a 19-item inspection checklist. The model covers:

- the zustand store (`src/lib/store.js`):
  - its seed data;
  - the checklist reconciler;
  - the progress calculator;
  - the site-list operations: load-all merge, load-one upsert, optimistic item patches and the rehydrate top-up.
- the older localStorage module (`src/lib/storage.js`): its load-and-repair loop, in-place updates and team-slot progress;
- the timeline page (`src/pages/TimelinePage.jsx`): the status cycle, role badges, section grouping and card rows;
- the calendar (`src/components/ui/calendar.jsx`): its 42-cell day grid, date-string parsing and range tests;
- the date-range picker (`src/components/DateRangePicker.jsx`): its two-click state machine and labels;
- the spreadsheet row builder (`src/lib/exportExcel.js`);
- the session store (`src/lib/userStore.js`).

## How the model is shaped

- **One module per source file.** The state-changing parts are classes whose methods change fields:
  - `SiteStore.SiteStore`;
  - `LegacyStorage.LocalStorage`;
  - `DateRangePicker.Picker`;
  - `UserStore.Store`.

  Each method is proved against a pure function of the old state.
- **Loops stay loops.** The loops of the source are `while` loops proved against specification functions:
  - the checklist rebuild;
  - `loadData`;
  - the three loops of `getCalendarDays`;
  - the nested loops of the export.
- **Shared helpers.** Several modules are shared by the others:
  - `Wrappers` and `JsText` for JavaScript strings and truthiness;
  - `Domain` for the records;
  - `Seed` for the seed data;
  - `Grouping` for the `new Set`, `filter` and `slice` idioms;
  - `CivilDates` for JavaScript's local `Date`.
- **JavaScript values.** `null` and `undefined` are `None`. A string is truthy when it is `Some` of a non-empty string. `{...a, ...b}` is `Domain.ApplyPatch` of a patch whose fields are `Keep` or `Put(v)`.
- **Percentages.** `Math.round(p / q)` is computed exactly as `(2p + q) div 2q`. The NaN of a division by zero is `None`.
- **Dates.** A day is `(year, month, day)`, compared in that order.
  - `new Date(y, m, d)` is `CivilDates.MakeDate`. It treats years 0 to 99 as 1900 to 1999, carries month indexes and rolls days over into neighbouring months.
  - `getDay()` is computed from a day count.
  - `new Date(text)` on a free-form string is implementation-defined. It is the parameter `parse`.
- **I/O.** Network results enter as parameters (`Fetch` outcomes). `localStorage` is a field holding the stored entry. Clocks enter as a `now` string.

## Model

| member | source | states |
|---|---|---|
| Seed.InitialTimeline | src/lib/store.js:15-637 | The seed timeline has 67 tasks with ids 1..67, all `pending`. |
| Seed.SeedTask | src/lib/store.js:15-637 | Seed task `i` has id `i + 1`, status `pending`, and no completion time or completer. |
| Seed.InitialChecklist | src/lib/store.js:640-736 | The seed checklist has 19 items with ids 1..19 in order. |
| Seed.InitialChecklistDefaults | src/lib/store.js:640-736 | Every seed item is checked by default except ids 5 and 7. |
| Seed.CompletedTimeline | src/lib/store.js:739-745 | Every seed task becomes `completed`, with a completion stamp. |
| Seed.CompletedChecklist | src/lib/store.js:748-753 | Every seed item becomes checked. |
| Seed.SeedSites | src/lib/store.js:756-777 | The seed has three sites: anyang and gunpo with the fresh timeline and checklist, icheon with everything completed and checked. |
| Checklist.ValidateAndUpdateChecklist | src/lib/store.js:780-804 | The loop that carries `checked` into a fresh seed list equals `Validate`, in all three branches. |
| Checklist.RebuildChecklist | src/lib/store.js:781-792 | The `for` loop over a fresh seed list, carrying `checked` from the first id-or-text match, yields `Rebuild` of the input. |
| Checklist.FirstMatch | src/lib/store.js:785-787 | The index found is the first item matching the seed item by id or by text, or the length when none matches. |
| Checklist.KeepValidIdsConcat | src/lib/store.js:800 | Filtering a concatenation filters each part in turn, so the kept items stay in their input order. |
| Checklist.KeepValidIdsSingle | src/lib/store.js:800 | One item is kept exactly when its id lies in 1..19. |
| Checklist.KeepValidIdsCount | src/lib/store.js:800 | An item with an id in 1..19 is kept as often as it occurs; any other item is gone. |
| Checklist.RebuildBranch | src/lib/store.js:781-793 | A missing or wrong-length list gives 19 items with the seed ids and texts. Each item's `checked` comes from its first id-or-text match, else from the seed default. |
| Checklist.RebuildItem | src/lib/store.js:783-790 | Rebuilt item `i` takes `checked` from the first input item with its id or text; with no such item it keeps the seed default. |
| Checklist.RebuildOfNothing | src/lib/store.js:780-792 | With no checklist at all, the rebuild is the seed checklist itself. |
| Checklist.EmptyBecomesSeed | src/lib/store.js:781-793 | An empty list is rebuilt into exactly the seed checklist. |
| Checklist.ValidIsUnchanged | src/lib/store.js:797-803 | A 19-item list with all ids in 1..19 is returned unchanged. |
| Checklist.RebuildIsFixedPoint | src/lib/store.js:781-803 | Reconciling the rebuild branch's output again changes nothing. |
| Checklist.KeepValidIdsDrops | src/lib/store.js:798-801 | A list with a foreign id loses at least one item to the filter. |
| Checklist.FilterBranch | src/lib/store.js:797-801 | A 19-item list with a foreign id comes back filtered and shorter than 19, so the next pass takes the rebuild branch. |
| Checklist.DuplicateIdsPassUnrepaired | src/lib/store.js:797-803 | A 19-item list with duplicate valid ids passes unchanged. |
| Checklist.ValidateChangesIff | src/lib/store.js:780-804 | A present list is changed exactly when its length is not 19 or it holds a foreign id. |
| Checklist.ValidateSettles | src/lib/store.js:780-804 | A second pass changes nothing, except after the filter branch; a third pass always changes nothing. |
| Progress.CompletedPlusWorking | src/lib/store.js:1003-1007 | `completed + working <= total`. |
| Progress.TimelineBounds | src/lib/store.js:1009-1020 | The timeline percentage is NaN exactly for an empty timeline and otherwise lies in [0, 100]. |
| Progress.ChecklistBounds | src/lib/store.js:1012-1021 | The checklist percentage is NaN exactly for an empty checklist and otherwise lies in [0, 100]. |
| Progress.OverallBounds | src/lib/store.js:1017-1022 | `overall` is NaN when either list is empty and otherwise lies in [0, 100]. |
| Progress.OverallRoundsExactWeightedSum | src/lib/store.js:1017-1022 | `overall` lies within one half of the unrounded `0.7 * timeline + 0.3 * checklist`. |
| Progress.RoundedOnceNotCompounded | src/lib/store.js:1017-1022 | At 1 of 8 tasks and 7 of 8 items `overall` is 35. Rounding the components first would give 36. |
| Progress.TimelineFullIff | src/lib/store.js:1009-1020 | Below 200 items, the timeline shows 100 exactly when every task is completed. |
| Progress.PercentFullIff | src/lib/store.js:1009-1020 | For fewer than 200 units, a rounded share of 100 means the part is the whole, and conversely. |
| Progress.RoundingHidesLastItem | src/lib/store.js:1009-1020 | 199 of 200 completed tasks already show 100. |
| Progress.FullSiteProgress | src/lib/store.js:1003-1022 | A fully completed and checked site shows 100 on all three figures. |
| Progress.CompletedSeedSiteIsFull | src/lib/store.js:739-769 | The seed site `icheon-public-sewer` shows 100 for timeline, checklist and overall. |
| Progress.WorkedExample | src/lib/store.js:1003-1022 | 5 of 20 tasks and 10 of 19 items give 25, 53 and 33. |
| Progress.InitialChecklistCount | src/lib/store.js:640-736 | The seed checklist has 17 of its 19 items checked. |
| Progress.Round | src/lib/store.js:1020-1022 | The result is the integer nearest to p/q, ties going up. |
| SiteStore.SiteStore.constructor | src/lib/store.js:811-813 | The store starts with the seed sites, not loading, with no error. |
| SiteStore.SiteStore.LoadAllSites | src/lib/store.js:816-867 | The new site list is `AfterLoadAll` of the old list and the outcome, stored and returned; no error is kept. |
| SiteStore.SiteStore.LoadSite | src/lib/store.js:870-917 | On success the site is reconciled and upserted. On failure the cached site is returned, or the error is recorded and rethrown. |
| SiteStore.SiteStore.UpdateTimelineItem | src/lib/store.js:920-956 | An unknown site or item returns `None` and changes nothing. Otherwise the first matching item is merged with the patch in every site with that id, and the merged item is returned. |
| SiteStore.SiteStore.UpdateChecklistItem | src/lib/store.js:959-995 | The same, setting only `checked` of the first item with the id. |
| SiteStore.SiteStore.GetSite | src/lib/store.js:1031-1033 | Returns the first site with the id, or `None` when there is none. |
| SiteStore.SiteStore.CalculateProgress | src/lib/store.js:998-1028 | An unknown id gives the zero result; otherwise the progress of the first site with the id. |
| SiteStore.SiteStore.Rehydrate | src/lib/store.js:1040-1048 | The persisted sites, followed by the seed sites they lack. |
| SiteStore.AcceptedSite | src/lib/store.js:878-884 | A payload is accepted exactly when it is a site with a non-empty id or a `{site}` wrapper. Otherwise the error is `Invalid API response format`. |
| SiteStore.AcceptedSites | src/lib/store.js:824-830 | Exactly a `{sites}` array wrapper or a bare array is accepted; any other shape is `Invalid API response format`. |
| SiteStore.MissingConcat | src/lib/store.js:840-841 | The seed sites missing from a concatenation are those missing from each part in turn, so seed order is kept. |
| SiteStore.MissingSingle | src/lib/store.js:840-841 | One candidate is missing exactly when no present site has its id. |
| SiteStore.MissingCount | src/lib/store.js:840-841 | A candidate whose id is absent stays as often as it occurs; one whose id is present is gone. |
| SiteStore.MissingOnce | src/lib/store.js:840-841 | For candidates with distinct ids, each absent one is kept exactly once and each present one not at all. |
| SiteStore.TopUp | src/lib/store.js:839-842 | The list is kept as a prefix, and what follows it is exactly the seed sites whose id the list lacks. |
| SiteStore.TopUpAppendsMissingOnce | src/lib/store.js:839-842 | The appended tail holds each seed site whose id is absent exactly once, in seed order, and no seed site whose id is present. |
| SiteStore.Fallback | src/lib/store.js:849-865 | A failed load starts with the seed sites, in seed order. |
| SiteStore.Upsert | src/lib/store.js:890-902 | A known id is replaced at its first index and nothing else changes; an unknown one is appended. |
| SiteStore.FindSite | src/lib/store.js:1031-1033 | A site is found exactly when one has the id; it is the first one with it. |
| SiteStore.LoadAllKeepsSeeds | src/lib/store.js:816-867 | After any load, every seed id is present. |
| SiteStore.TopUpHasSeeds | src/lib/store.js:839-842 | Topping up keeps the list as a prefix and adds every missing seed id. |
| SiteStore.TopUpIdempotent | src/lib/store.js:1040-1048 | Topping up twice is topping up once. |
| SiteStore.FallbackSeedWins | src/lib/store.js:849-860 | With a cache: the seed sites come first, then exactly the cached sites whose id no seed site has, in cache order and each as often as cached. No seed id is repeated. |
| SiteStore.FallbackEmptyCacheIsSeed | src/lib/store.js:862-864 | With an empty cache a failed load gives exactly the seed. |
| SiteStore.LoadAllSuccessKeepsServerOrder | src/lib/store.js:824-842 | A `{sites: [...]}` or bare-array payload gives the server sites in order, each keeping its id, name and timeline with its checklist reconciled, then the missing seed sites. |
| SiteStore.LoadAllBadShapeFallsBack | src/lib/store.js:829-831 | Any other payload shape is handled as a failed load. |
| SiteStore.UpsertThenFind | src/lib/store.js:890-903 | After the upsert, looking up the id finds the site; the length grows by at most one. |
| SiteStore.UpsertIdempotent | src/lib/store.js:890-903 | Upserting the same site twice is upserting it once. |
| SiteStore.ReplaceAllThenFind | src/lib/store.js:944 | The map-replace keeps the length, puts the updated site at every index holding the id, and leaves sites with other ids untouched; the id then finds the updated site. |
| SiteStore.TimelineUpdateReadBack | src/lib/store.js:936-955 | After a successful update, the site holds the returned item at its index. |
| SiteStore.ChecklistUpdateReadBack | src/lib/store.js:975-994 | After a successful update, the item can be read back with the new `checked`, the other items and the timeline are kept, and the site's checked count moves by exactly that item's change. |
| Progress.CountCheckedUpdate | src/lib/store.js:1011-1012 | Setting `checked` of one item changes the checked count by exactly that item's change. |
| SiteStore.ReplaceAllOverwritesDuplicates | src/lib/store.js:944 | Two sites sharing the id both become the updated copy of the first. |
| LegacyStorage.RepairChecklist | src/lib/storage.js:77-105 | One loop body: a missing checklist becomes the seed, a wrong-length one is rebuilt, a foreign id is filtered. `changed` is true exactly when the site changed. |
| LegacyStorage.FindRawSite | src/lib/storage.js:129-132 | `find` throws exactly when the data has no `sites`; otherwise it gives the site with the id, or nothing when none has it. |
| LegacyStorage.RepairSettles | src/lib/storage.js:76-106 | The walk keeps every site's id, name and timeline and gives it a checklist. Repairing twice and three times agree. |
| LegacyStorage.LocalStorage.LoadData | src/lib/storage.js:68-117 | Returns `Loaded` of the entry and rewrites the entry exactly as `AfterLoad` says. |
| LegacyStorage.LocalStorage.SaveData | src/lib/storage.js:120-126 | The entry now holds the data. |
| LegacyStorage.LocalStorage.GetSiteData | src/lib/storage.js:129-132 | Returns the first loaded site with the id, or none; throws when the data has no `sites`. |
| LegacyStorage.LocalStorage.UpdateSiteData | src/lib/storage.js:135-144 | The first matching site is shallow-merged and saved, and returned; an unknown id gives null. |
| LegacyStorage.LocalStorage.UpdateTimelineItem | src/lib/storage.js:147-159 | The first matching item is merged with the patch, saved and returned; other items are untouched; null when the site or item is missing. |
| LegacyStorage.LocalStorage.UpdateChecklistItem | src/lib/storage.js:162-174 | Only `checked` of the first matching item changes. |
| LegacyStorage.LocalStorage.CalculateProgress | src/lib/storage.js:177-201 | An unknown site gives zeros; otherwise the team-slot progress of the first match. |
| LegacyStorage.ValidateChangesIffMissing | src/lib/storage.js:77-105 | A site is repaired into something else exactly when its checklist is missing, of the wrong length, or holds a foreign id. |
| LegacyStorage.SavesOnLoadIffChanged | src/lib/storage.js:75-109 | `needsUpdate` holds, and the entry is rewritten, exactly when loading changed the data. |
| LegacyStorage.VacantLoadsInitial | src/lib/storage.js:69-116 | An absent, empty or unreadable entry loads as the single-site initial data and is not written. |
| LegacyStorage.NoSitesUntouched | src/lib/storage.js:74-111 | Data without sites, or with an empty list, is returned as it is. |
| LegacyStorage.LoadedSitesHaveChecklists | src/lib/storage.js:76-105 | After loading, every site has a checklist with no id outside 1..19. |
| LegacyStorage.LoadSettles | src/lib/storage.js:68-117 | The third load neither changes nor writes the data. |
| LegacyStorage.AfterLoadOfSites | src/lib/storage.js:107-111 | With sites to walk, the entry after loading holds exactly the loaded data. |
| LegacyStorage.TeamTimelineFullIff | src/lib/storage.js:182-186 | Below 100 items, the team percentage is 100 exactly when both teams completed every item. |
| LegacyStorage.LegacyTimelineTeams | src/lib/storage.js:18-42 | The seed timeline has 30 of its 40 team slots completed. |
| LegacyStorage.ThirtyOfFortyProgress | src/lib/storage.js:182-199 | 30 of 40 slots and 17 of 19 checks give 75, 89 and 79. |
| LegacyStorage.LegacySeedProgress | src/lib/storage.js:6-65 | The seed site shows 75 for the timeline, 89 for the checklist and 79 overall. |
| TimelineView.NextStatus | src/pages/TimelinePage.jsx:34-39 | The result is a status. For a status, it is the next one in the cycle; for any other value, `pending`. |
| TimelineView.StatusUpdates | src/pages/TimelinePage.jsx:41-47 | The update sets the next status. `completedAt` is `now` exactly when that status is `completed` and null otherwise; nothing else is set. |
| TimelineView.ShownStatusDrivesClick | src/pages/TimelinePage.jsx:243 | A card always shows a non-empty status (`pending` for a missing or empty one), and a click moves on from exactly the status shown. |
| TimelineView.StatusCycle | src/pages/TimelinePage.jsx:34-39 | pending goes to working, then completed, then pending; a missing or empty status counts as pending. |
| TimelineView.ThreeClicksRestore | src/pages/TimelinePage.jsx:36-38 | Three clicks bring any status back to itself. |
| TimelineView.NextStatusInjective | src/pages/TimelinePage.jsx:36-38 | On the three statuses, a click is one-to-one. |
| TimelineView.StatusChangeEffect | src/pages/TimelinePage.jsx:41-49 | After the merge, the item has a completion time exactly when it is completed. Nothing else changes, `completedBy` included. |
| TimelineView.NormalizeRole | src/pages/TimelinePage.jsx:235-240 | The result is rnd, field or both: the trimmed, lower-cased role when that is one of them, else both. |
| TimelineView.InvalidRoleIsBoth | src/pages/TimelinePage.jsx:237-240 | An unrecognised role is drawn as both. |
| TimelineView.RoleSpelledAs | src/pages/TimelinePage.jsx:237-240 | A role whose trimmed, lowered spelling is a valid role is that role. |
| TimelineView.RoleSpellings | src/pages/TimelinePage.jsx:237-240 | `' RnD '` is rnd and `FIELD` is field. |
| TimelineView.MissingRoleIsBoth | src/pages/TimelinePage.jsx:237 | A missing or empty role is both. |
| TimelineView.NormalizeRoleIdempotent | src/pages/TimelinePage.jsx:237-240 | Normalising twice is normalising once. |
| TimelineView.BadgesOfRole | src/pages/TimelinePage.jsx:278-299 | A card has at least one badge: R&D unless its role is field, and field team unless it is rnd. |
| TimelineView.Sections | src/pages/TimelinePage.jsx:106 | The sections are exactly the section values of the items, without repeats. |
| TimelineView.SectionItems | src/pages/TimelinePage.jsx:201 | The items of a section are the timeline items with that section. |
| Grouping.WhereConcat | src/pages/TimelinePage.jsx:201 | Filtering a concatenation by section filters each part in turn, so a section's items stay in timeline order. |
| Grouping.WhereCount | src/pages/TimelinePage.jsx:201 | An item of the section is kept as often as it occurs; any other item is gone. |
| TimelineView.SectionsPartition | src/pages/TimelinePage.jsx:201 | Every section group is non-empty and holds exactly its section's items. Together the groups hold every item as often as it occurs. |
| TimelineView.SectionsInFirstOccurrenceOrder | src/pages/TimelinePage.jsx:106 | Sections come in the order of their first occurrence. |
| TimelineView.RowsCoverSection | src/pages/TimelinePage.jsx:203-220 | There are `ceil(n/3)` rows. Each holds 1..3 cards and all but the last hold 3; read in order, they are the section's items. |
| Calendar.PushPreviousMonthDays | src/components/ui/calendar.jsx:300-306 | The first loop yields the last `firstDayOfWeek` days of the previous month, in order. |
| Calendar.PushMonthDays | src/components/ui/calendar.jsx:293-311 | The second loop yields days 1..length of the month. |
| Calendar.PushNextMonthDays | src/components/ui/calendar.jsx:314-320 | The third loop yields days 1..`remainingDays` of the next month. |
| Calendar.GetCalendarDays | src/components/ui/calendar.jsx:289-323 | The result is the leading, own and trailing days of the grid. |
| Calendar.GridHasSixWeeks | src/components/ui/calendar.jsx:313-320 | With outside days there are always 42 cells. |
| Calendar.GridLayout | src/components/ui/calendar.jsx:294-320 | The first `w` cells are the previous month's last `w` days, each with its full date, ascending and ending on its last day. Then day 1 in the column of its weekday, the month's days in order, and the next month's days from 1. |
| Calendar.GridWithoutOutsideDays | src/components/ui/calendar.jsx:300-314 | Without outside days the grid is exactly days 1..length of the month. |
| Calendar.NormalizeDate | src/components/ui/calendar.jsx:17-38 | A missing or empty string gives null; a `yyyy-MM-dd` string gives the day its fields name. |
| Calendar.SameDatePrefixSameDay | src/components/ui/calendar.jsx:21-30 | `yyyy-MM-dd` and `yyyy-MM-ddT...` with the same date part give the same day. |
| Calendar.IsoDayHasNoT | src/components/ui/calendar.jsx:21-26 | A `yyyy-MM-dd` string contains no `T`, so the regex branch is taken before the `T` branch. |
| Calendar.IsoDaySplit | src/components/ui/calendar.jsx:22 | `split('-')` of a `yyyy-MM-dd` string is its three fields. |
| Calendar.DashedIsoDay | src/components/ui/calendar.jsx:22-29 | Reading a `yyyy-MM-dd` string through `split('-')` gives the same day as the regex branch. |
| Calendar.NormalizeDayKeepsDay | src/components/ui/calendar.jsx:41-43 | For a year outside 0..99, a day normalises to itself. |
| Calendar.NormalizeDayIdempotent | src/components/ui/calendar.jsx:41-43 | Normalising a day twice is normalising it once, years 0..99 included. |
| Calendar.InRangeIff | src/components/ui/calendar.jsx:45-55 | A day is in range exactly when both ends parse to days and it lies between them, both ends included. A missing end leaves every day out. |
| Calendar.RangeEndsIncluded | src/components/ui/calendar.jsx:45-71 | For end days with years outside 0..99, both end days of a parsed range are in range; the first is the start and the second the end. |
| Calendar.TempRangeCases | src/components/ui/calendar.jsx:73-93 | Without a start, always false. With an end, strictly between. Without an end, strictly after the start. |
| Calendar.TempStartExcluded | src/components/ui/calendar.jsx:84-92 | The start day itself is never in the range being chosen. |
| DateRangePicker.Picker.constructor | src/components/DateRangePicker.jsx:15-21 | A new picker is closed, idle, with no start remembered. |
| DateRangePicker.Picker.HandleDateSelect | src/components/DateRangePicker.jsx:23-79 | The new state and the emitted selection are `Select` of the old state and the clicked day. |
| DateRangePicker.Picker.SetOpen | src/components/DateRangePicker.jsx:95-108 | The new state is `OpenChange` of the old one. |
| DateRangePicker.OpenChange | src/components/DateRangePicker.jsx:95-100 | Opening resets the phase to idle and forgets the start; closing keeps both. |
| DateRangePicker.FormatDateRange | src/components/DateRangePicker.jsx:81-93 | null exactly when there is no start; the start alone when there is no completion date or it equals the start; otherwise the start, ` ~ `, then the completion date, for any strings. |
| DateRangePicker.DayStringRoundTrip | src/components/DateRangePicker.jsx:30-36 | A day of a four-digit year is spelled `yyyy-MM-dd`, and the calendar parses it back to that day. |
| DateRangePicker.DayStringSlices | src/components/DateRangePicker.jsx:30-36 | A four-digit-year day string is ten characters: the year, a dash, the two-digit month, a dash, the two-digit day. |
| DateRangePicker.DayStringInjective | src/components/DateRangePicker.jsx:30-36 | Two such days are spelled alike exactly when they are equal. |
| DateRangePicker.FormatLocalDateOfDay | src/components/DateRangePicker.jsx:25-36 | On such a day, `formatLocalDate` is its plain spelling. |
| DateRangePicker.ConsistencyKept | src/components/DateRangePicker.jsx:40-57 | A start is remembered exactly in phase start; the initial state, clicks and opening keep this. |
| DateRangePicker.FirstClick | src/components/DateRangePicker.jsx:40-43 | An idle click remembers the normalised day, moves to start and emits nothing. |
| DateRangePicker.SecondClick | src/components/DateRangePicker.jsx:44-77 | A second click emits the two days, earlier first, and leaves the picker closed, idle and empty. |
| DateRangePicker.StartWithoutDayIgnored | src/components/DateRangePicker.jsx:44 | Phase start with no remembered day ignores the click. |
| DateRangePicker.ClickOrderIrrelevant | src/components/DateRangePicker.jsx:61-68 | For any two valid days, clicking a then b emits the same range as b then a. |
| DateRangePicker.SecondClickRange | src/components/DateRangePicker.jsx:49-88 | The emitted strings parse back to the ordered days, and both are in the calendar's range. The label is one date for a single day and `start ~ end` otherwise. |
| DateRangePicker.OpenResets | src/components/DateRangePicker.jsx:95-100 | Opening forgets a half-chosen range. |
| DateRangePicker.PropsWhileChoosing | src/components/DateRangePicker.jsx:126-140 | While a start is remembered, the calendar gets its spelling as the temp start, and no day is in range, a start or an end of the saved range. |
| DateRangePicker.ChoosingTempRange | src/components/DateRangePicker.jsx:126-140 | While a day of a four-digit year is remembered, the chosen-range days are exactly those after it. |
| DateRangePicker.PropsWhileIdle | src/components/DateRangePicker.jsx:126-140 | When idle, the saved range is passed on, each missing or empty end as null, and there is no range being chosen. |
| ExportExcel.FormatDate | src/lib/exportExcel.js:17-33 | A missing date gives `''`, and so does a non-`yyyy-MM-dd` string that does not parse. |
| ExportExcel.FormatIsoDate | src/lib/exportExcel.js:21-24 | `yyyy-MM-dd` becomes `MM.DD`, five characters. |
| ExportExcel.FormatPickedDate | src/lib/exportExcel.js:17-29 | A date saved by the picker becomes the month and day of that day. |
| ExportExcel.SubSectionRows | src/lib/exportExcel.js:50-70 | One row per item of the sub-section. |
| ExportExcel.SectionFirstRow | src/lib/exportExcel.js:47-62 | A section's first row is the labelled row of its first item. |
| ExportExcel.SubSectionLabelOnce | src/lib/exportExcel.js:54-69 | A section has one row group per sub-section. Each row has five cells, and only a group's first row shows the sub-section key in the second cell; the others leave it blank. |
| ExportExcel.PushSubSectionRows | src/lib/exportExcel.js:54-70 | The innermost loop yields the sub-section's rows. The section flag survives only an empty sub-section. |
| ExportExcel.PushSectionRows | src/lib/exportExcel.js:42-71 | The loop over the sub-sections yields the section's rows. |
| ExportExcel.BuildRows | src/lib/exportExcel.js:36-72 | The nested loops yield exactly `ExportRows`. |
| ExportExcel.ExportTimelineToExcel | src/lib/exportExcel.js:7-80 | No site or no timeline gives no sheet. Otherwise the sheet is the name, a blank row, the headers and the rows. |
| ExportExcel.ExportRowsFollowItems | src/lib/exportExcel.js:39-72 | There is one five-cell row per timeline item. In order, the rows carry the cells of the items taken by section and sub-section, and those are exactly the timeline's items. |
| ExportExcel.SectionLabelOnce | src/lib/exportExcel.js:47-68 | A section's first row is its first item's row, showing the section and that item's sub-section; later rows leave the section cell blank. |
| ExportExcel.SectionRowGroupsBlank | src/lib/exportExcel.js:47-68 | Only the first item of a section's first sub-section shows the section name. |
| ExportExcel.ExportOrder | src/lib/exportExcel.js:39-45 | Sections come in first-occurrence order in the timeline; sub-sections in first-occurrence order within their section. |
| ExportExcel.SheetLayout | src/lib/exportExcel.js:75-80 | The sheet for a timeline has its length + 3 lines: the name, an empty line, the headers, then the export rows in order, each of five cells. |
| UserStore.Store.constructor | src/lib/userStore.js:11 | No user at first. |
| UserStore.Store.SetUser | src/lib/userStore.js:14-17 | The stored user becomes `Login` of the old one and the nickname. |
| UserStore.Store.ClearUser | src/lib/userStore.js:20-22 | No user afterwards. |
| UserStore.Store.GetNickname | src/lib/userStore.js:25-28 | A returned nickname is the stored one. For a well-formed store, there is a nickname exactly when a user is logged in. |
| UserStore.NicknameOf | src/lib/userStore.js:25-28 | A nickname is never empty; there is none when there is no user. |
| UserStore.LoginStoresTrimmed | src/lib/userStore.js:15-16 | A non-blank nickname is stored trimmed and reported back; a null, empty or blank one changes nothing. |
| UserStore.LoginKeepsWellFormed | src/lib/userStore.js:14-17 | Logging in keeps the stored nickname trimmed and non-empty. |
| UserStore.LoginIdempotent | src/lib/userStore.js:14-17 | Logging in twice with the same nickname is logging in once. |
| UserStore.LoginWithOwnNickname | src/lib/userStore.js:14-28 | Logging in again with the reported nickname changes nothing. |

## Left out

- Network calls (`src/lib/api.js`) are not performed. Their outcomes are parameters, and the server PATCH after an optimistic update is not modelled, since its failure is swallowed.
- Async ordering and concurrent requests: every operation runs to completion on the state it reads.
- `localStorage`, `JSON.parse` and `JSON.stringify` are modelled as a field holding a stored value. A failed save is not modelled, because `saveData` only logs it.
- zustand's `persist` merge is modelled as replacing the sites by the persisted ones before the top-up.
- `console` logging, all JSX rendering and CSS, the popover, tooltip and chart components, routing, and `LoginPage.jsx`, which calls functions `userStore.js` does not define.
- The XLSX calls are not modelled: sheet creation, column widths, the merged title cell, workbook writing, and the file name with today's date. Only the cells of the sheet are.
- `formatCompletedTime`, the `new Date().toISOString()` stamp (it enters as `now`), month navigation (`month`/`setMonth`, and the effect that moves to the start's month), and the grid's styling of outside days.
- The non-string branch of `normalizeDate` and of `formatDate`, and their `try`/`catch`, since every modelled input is a string. `new Date(text)` for free-form strings is the parameter `parse`. Time zones, daylight saving and the time of day are not modelled: a day is its local calendar date.
- `Number()` is modelled only on digit strings. Other spellings it accepts, such as `" 5"`, `"+5"` or `"1e1"`, are read as NaN.
- `toLowerCase` is modelled on ASCII letters only. Where it is used, in the role test, this gives the same outcome. No non-ASCII character lowercases to a letter of `rnd`, `field` or `both`: the Kelvin sign lowercases to `k`, and U+0130 lowercases to two code units. So no other spelling of a role matches.
- Floating point: percentages are exact fractions rounded half up, so doubles that land a hair off an exact .5 are not modelled.
- Item ids are integers, `section` and `subSection` are plain strings, and only the keys the code reads are part of a timeline item. Every site carries a `timeline` list and, in the store, a `checklist` list.
- SiteStore.SiteStore.UpdateTimelineItem: a site without a `timeline` key is not modelled. The store's `site.timeline.findIndex` then throws a TypeError, which the model does not promise.
- SiteStore.SiteStore.CalculateProgress: a site without a `timeline` key is not modelled. The store's `site.timeline.length` then throws a TypeError.
- Dates are unbounded civil dates. The JavaScript `Date` range limit of 8.64e15 ms either side of 1970 (about year 275760), beyond which `new Date` gives an invalid date, is not modelled.
- `LegacyStorage.LocalStorage.UpdateTimelineItem`: the storage module's update of a missing `timeline` key (a throw) is not modelled; stored sites always carry a timeline.
- Progress.InitialChecklistCount: the progress of the 67-task `anyang-bakdal` seed site of the store is not stated as a figure. Only its checklist count and the completed site's figures are.
- DateRangePicker.DayStringRoundTrip: stated for years 1000 to 9999 only. Other years are not spelled with four digits, and the calendar's `yyyy-MM-dd` test then rejects them. DateRangePicker.SecondClickRange, DateRangePicker.ChoosingTempRange and ExportExcel.FormatPickedDate carry the same restriction.
- Calendar.RangeEndsIncluded: stated for end days outside the years 0 to 99. For those years `normalizeDay` moves the day into the 1900s, so the day tested is no longer the end day itself.
- Calendar.GetCalendarDays: `firstDayOfWeek` is computed by `FirstWeekday`, the weekday of the first of the shown month. This is the value `new Date(year, monthIndex, 1).getDay()` has, but it is not written as that call.
