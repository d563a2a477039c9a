# Weekly workout planner: a Dafny model

This project models the in-memory planning core of a weekly workout planner. It covers:

- **The data model:** the seven days; the intensity, focus-area and time-of-day enums; workouts made of exercise prescriptions; scheduled slots that refer to workouts by id; and the planner state, which pairs the workout list with a day-to-slots schedule.
- **The workout builder:** toggling an exercise, editing a prescription, and creating a workout from the draft behind a silent validation guard.
- **The schedule handlers:** assigning a workout to a day and removing a slot from a day.
- **Loading:** the merge that lays a stored snapshot over the built-in state.
- **The weekly summary:** total sessions, intensity buckets, dominant focus and recovery days.
- **The built-in state** (`DEFAULT_STATE`): its summary is worked out in full.

Modules, one file each:

| file | module | contents |
|---|---|---|
| `Text.dfy` | `Text` | `String.prototype.trim` over the ECMAScript whitespace set, and what a trimmed or blank string is |
| `Model.dfy` | `Model` | the types, `DAYS`, the `?? []` day read, `workouts.find`, `trim() \|\| undefined` |
| `Builder.dfy` | `Builder` | the builder draft and the handlers `handleToggleExercise`, `handleUpdatePrescription` and `handleCreateWorkout` |
| `Schedule.dfy` | `Schedule` | `handleAssignWorkout` and `handleRemoveSlot` |
| `Seed.dfy` | `Seed` | `DEFAULT_STATE` and the hydration merge |
| `Summary.dfy` | `Summary` | the summary as functions, and as an imperative `Summarize` method with the source's nested loops, proved equal to them |
| `SummaryFacts.dfy` | `SummaryFacts` | what each summary field means, stated against independent definitions |
| `Scenarios.dfy` | `Scenarios` | concrete weeks: the built-in plan, an empty week, a week with one session |

The handlers build new state values and mutate nothing shared, so they are functions over a `PlannerState` datatype.

`summary` is the one imperative part. It runs a reduce, then nested `for` loops that bump two records in place. It is modelled as the method `Summary.Summarize`, with those loops and their invariants. The method's contract equates its result with the functional specification `Summary.SummaryOf`. `SummaryFacts` then proves what that specification means.

A slot id or workout id that the source draws from `safeId()` is a parameter here. The stored snapshot that the source reads from `localStorage` is an `Option` parameter.

The built-in schedule holds five slots, on Monday, Tuesday, Thursday, Friday and Saturday; Wednesday and Sunday are empty.

When two focus areas tie for the largest count, the dominant focus is the one counted first in schedule order. That order is the insertion order of `focusBuckets`, which a stable sort keeps among equal counts. `Summary.Best` picks the first entry, in key order, whose count no entry exceeds: the head of a stable descending sort.

The schedule is `map<DayId, seq<Slot>>`, read through `DaySlots`, so a missing day reads as an empty list. No handler needs all seven keys. `Seed.Hydrate` promises that all seven are present after loading, and `Schedule.HandlersKeepWeekComplete` proves that the handlers keep them.

`Object.values(schedule)` is read in `DAYS` order. This holds for every schedule built from the built-in state, the merge and the handlers.

## Model

| member | source | states |
|---|---|---|
| Text.Trim | components/Planner.tsx:339 | the trimmed string sits inside the input at some offset, surrounded only by whitespace, and neither starts nor ends with whitespace |
| Text.TrimBlank | components/Planner.tsx:339 | `title.trim()` is empty exactly when the title is all whitespace; this is the blank-title half of the create guard |
| Text.TrimIdempotent | components/Planner.tsx:345 | trimming a trimmed string changes nothing, so a stored title is already in trimmed form |
| Model.TrimmedOrAbsent | components/Planner.tsx:353 | `notes.trim() \|\| undefined` is absent exactly when the input is all whitespace; when present it is the trimmed input, which is non-empty and has no whitespace at either end |
| Model.DaysEnumerateWeek | components/Planner.tsx:55-63 | `DAYS` lists each of the seven days exactly once |
| Model.DaySlots | components/Planner.tsx:281 | `schedule[day] ?? []` reads an absent day as no slots, and in a week holding all seven days it is the stored list |
| Model.Find | components/Planner.tsx:299 | `workouts.find` returns nothing exactly when no workout has the id; otherwise it returns the first workout with that id |
| Builder.Ids | components/Planner.tsx:349 | the keys of the exercise record, in insertion order (the order `Object.entries` yields) |
| Builder.Lookup | components/Planner.tsx:322 | `exercises[id]` is absent exactly when `id` is not a key; a value found is the entry recorded under `id` |
| Builder.WithoutEntries | components/Planner.tsx:323 | `delete exercises[id]` keeps exactly the entries under other keys |
| Builder.WithoutAbsent | components/Planner.tsx:322-323 | deleting a key the record does not hold changes nothing |
| Builder.WithoutLength | components/Planner.tsx:323 | deleting never lengthens the record, and strictly shortens it when the key is held |
| Builder.WithoutDistributes | components/Planner.tsx:323 | deleting works entry by entry and keeps order: deleting from a concatenation concatenates what is left of each part |
| Builder.DeselectCutsOut | components/Planner.tsx:322-323 | with unique keys, deselecting the entry at position k leaves the entries before it and after it, in their order |
| Builder.Put | components/Planner.tsx:334 | `{...exercises, [id]: value}` keeps the key order for an existing key and appends a new key at the end |
| Builder.ToggleExercise | components/Planner.tsx:319-329 | toggling changes only the exercise record, and lengthens it by one exactly when the exercise was not selected |
| Builder.ToggleFlipsSelection | components/Planner.tsx:319-329 | toggling flips whether `id` is selected; a new selection gets the "3 x 12" default and its key goes last after the existing keys; a deselect cuts out exactly the entry for `id` and keeps the others in order; keys stay unique |
| Builder.ToggleTwiceRestores | components/Planner.tsx:319-329 | selecting a new exercise and then deselecting it gives back the draft unchanged |
| Builder.UpdatePrescription | components/Planner.tsx:331-336 | an update changes only the exercise record, and afterwards `id` is a key of it and reads the new value |
| Builder.UpdateRecordsValue | components/Planner.tsx:331-336 | after an update, `id` maps to the new value and every other key keeps its prescription |
| Builder.UpdateKeepsUnique | components/Planner.tsx:331-336 | an update never creates a second entry for a key |
| Builder.CanCreate | components/Planner.tsx:339-341 | the guard passes exactly when the title is not all whitespace and at least one exercise is selected |
| Builder.NewWorkout | components/Planner.tsx:343-354 | the new workout's notes are absent exactly when the draft's notes are all whitespace, and otherwise are the trimmed notes, non-empty and not starting with whitespace |
| Builder.CreateWorkout | components/Planner.tsx:338-362 | create leaves the schedule as it was; it appends exactly one workout, at the end, when the guard passes, and none otherwise; earlier workouts are kept in place |
| Builder.CreateRejectsInvalid | components/Planner.tsx:339-341 | a title that is all whitespace, or an empty exercise record, leaves the state unchanged |
| Builder.RepeatedInvalidCreateChangesNothing | components/Planner.tsx:339-341 | submitting an invalid draft any number of times leaves the state, and so the workout count, unchanged |
| Builder.CreatedWorkoutTitle | components/Planner.tsx:343-352 | the new workout has the fresh id and the trimmed title, which is non-blank and already trimmed; it has the draft's focus and intensity, and its exercises are the draft's entries, each id with its prescription, in selection order |
| Builder.CreatedWorkoutTrainingEffect | components/Planner.tsx:348 | the training effect is the draft's when that is non-empty (it is not trimmed), and otherwise "<focus> development"; it is never empty |
| Builder.CreatedWorkoutIsFound | components/Planner.tsx:356-361 | with a fresh id, looking up the id handed to the assignment selector finds the new workout |
| Builder.DraftAfterCreate | components/Planner.tsx:338-362 | after a successful create the draft is reset to `EMPTY_BUILDER`; a rejected draft is kept as it was; either way the draft left never passes the guard |
| Builder.SecondSubmitAddsNothing | components/Planner.tsx:338-362 | after a create, the draft cannot pass the guard, because it was either rejected or reset to `EMPTY_BUILDER`; so an immediate second submit adds nothing |
| Schedule.RemoveId | components/Planner.tsx:394 | the filter keeps only slots of the list, none with the removed id, and every slot with another id |
| Schedule.RemoveIdDistributes | components/Planner.tsx:394 | the filter works slot by slot and keeps order: filtering a concatenation concatenates the filtered parts |
| Schedule.AssignSlot | components/Planner.tsx:364-387 | assigning keeps the workouts and every other day; the selected day gains one slot when a workout is chosen and none otherwise |
| Schedule.RemoveSlot | components/Planner.tsx:389-397 | removal keeps the workouts and every other day; every slot left on the selected day was there before and has another id |
| Schedule.AssignWithoutWorkoutIsNoOp | components/Planner.tsx:365-367 | with no workout chosen, assigning does nothing |
| Schedule.AssignAppendsToDay | components/Planner.tsx:369-384 | assigning appends exactly one slot to the end of the selected day: the fresh id, the chosen workout and time, trimmed-or-absent notes. Other days and the workouts are unchanged, and nothing checks that the workout exists |
| Schedule.RemoveFiltersDay | components/Planner.tsx:389-397 | removal keeps exactly the slots of the selected day whose id differs; other days and the workouts are unchanged |
| Schedule.RemoveAbsentIsNoOp | components/Planner.tsx:389-397 | removing an id that the day does not hold changes nothing |
| Schedule.HandlersKeepWeekComplete | components/Planner.tsx:377-396 | assign and remove keep every one of the seven days present |
| Schedule.AssignThenRemoveRestores | components/Planner.tsx:364-397 | assigning under a fresh slot id, then removing that id, gives back the original state |
| Schedule.RemoveAppended | components/Planner.tsx:381-394 | filtering out the fresh id of an appended slot gives back the day's earlier list |
| Seed.Hydrate | components/Planner.tsx:252-259 | after loading, all seven days are present; the stored workouts are taken when present and the built-in ones otherwise; a stored day wins and a day missing from storage falls back to the built-in one, so with nothing readable every day reads as the built-in one |
| Summary.CountSessions | components/Planner.tsx:284-287 | the reduce adds up the slot-list lengths of the seven days |
| Summary.CountWorkout | components/Planner.tsx:301-302 | one resolved workout adds one to its intensity bucket and one to its focus bucket, and a new focus is keyed last |
| Summary.TallyDay | components/Planner.tsx:298-303 | the inner loop leaves the buckets as those of every slot read so far, skipping slots whose workout is not found |
| Summary.Summarize | components/Planner.tsx:283-317 | the summary the planner computes equals the functional specification `SummaryOf` |
| Summary.SummaryOf | components/Planner.tsx:283-317 | the summary has a bucket for every intensity level, at most seven recovery days, and "Balanced" exactly when no slot resolves |
| Summary.Resolved | components/Planner.tsx:297-300 | the workouts counted are at most one per slot |
| Summary.IntensityTally | components/Planner.tsx:289-303 | the intensity buckets always hold all three levels |
| Summary.FocusTally | components/Planner.tsx:295-303 | `focusBuckets` is empty exactly when nothing is counted |
| Summary.FocusOrder | components/Planner.tsx:302 | the key order of `focusBuckets` lists exactly its keys |
| Summary.RecoveryCount | components/Planner.tsx:306 | the recovery count never exceeds the number of days filtered |
| Summary.DominantOf | components/Planner.tsx:308-309 | "Balanced" exactly when nothing is counted; otherwise a focus that has a bucket |
| Summary.Best | components/Planner.tsx:308-309 | the head of the stable descending sort: a listed focus with the largest count, with every earlier-listed focus counting strictly less |
| SummaryFacts.TotalSessionsCountsEverySlot | components/Planner.tsx:284-287 | `totalSessions` is the number of slots across the whole week |
| SummaryFacts.ResolvedCountsResolvable | components/Planner.tsx:299-300 | exactly the slots whose workout id is found contribute a workout, and each one contributed is in the workout list |
| SummaryFacts.IntensityTallyCounts | components/Planner.tsx:289-303 | each intensity bucket holds how many counted workouts have that level, and the three buckets together count every counted workout |
| SummaryFacts.IntensityBucketsCountResolvedSlots | components/Planner.tsx:289-303 | the buckets are exactly Low, Medium and High; they count the resolved slots by level; their sum is the number of resolvable slots, so at most `totalSessions` |
| SummaryFacts.RecoveryCountIsEmptyDays | components/Planner.tsx:306 | over distinct days, the recovery count is the size of the set of empty days |
| SummaryFacts.RecoveryDaysCountEmptyDays | components/Planner.tsx:306 | `recoveryDays` is the number of the seven days with no slot; it lies in [0, 7] and equals 7 exactly when there are no sessions |
| SummaryFacts.FocusTallyCounts | components/Planner.tsx:295-303 | a focus has a bucket exactly when some counted workout has it, and the bucket holds how many do |
| SummaryFacts.FocusOrderIsFirstSeen | components/Planner.tsx:302 | the key order of `focusBuckets` is the order in which focus areas are first counted |
| SummaryFacts.BestIsFirstMaximal | components/Planner.tsx:308-309 | over a first-seen key order, the pick has the largest count and was first seen before every other focus with that count |
| SummaryFacts.DominantOfIsFirstMaximal | components/Planner.tsx:308-309 | "Balanced" exactly when nothing is counted; otherwise the maximal count, and ties go to the focus first met |
| SummaryFacts.DominantFocusIsFirstMaximal | components/Planner.tsx:295-309 | `dominantFocus` is "Balanced" exactly when no slot resolves. Otherwise it is a focus with the largest count, the one first met in week order among those tied |
| Scenarios.ReadWeek | components/Planner.tsx:297 | the week is read Monday's slots first and Sunday's last |
| Scenarios.DefaultWeek | components/Planner.tsx:190-208 | the built-in week holds five sessions, in this order: Monday, Tuesday, Thursday, Friday, Saturday |
| Scenarios.DefaultSeen | components/Planner.tsx:148-209 | every built-in session resolves: Lower Body Power, Engine Builder, Lower Body Power, Engine Builder, Active Recovery Flow |
| Scenarios.ResolvedAllFound | components/Planner.tsx:297-303 | when every slot names a known workout, exactly those workouts are counted, one per slot, in order |
| Scenarios.LevelsTally | components/Planner.tsx:289-303 | levels High, Medium, High, Medium, Low fill the buckets as Low 1, Medium 2, High 2 |
| Scenarios.TieGoesToFirstMet | components/Planner.tsx:308-309 | foci Strength, Endurance, Strength, Endurance, Recovery give Strength, which ties with Endurance and is met first |
| Scenarios.DefaultRecovery | components/Planner.tsx:306 | the built-in week has two recovery days, Wednesday and Sunday |
| Scenarios.DefaultSummary | components/Planner.tsx:148-209 | the built-in state summarises to 5 sessions, buckets Low 1 / Medium 2 / High 2, dominant focus Strength, and 2 recovery days |
| Scenarios.EmptyWeekSummary | components/Planner.tsx:283-317 | a week with no slots summarises to 0 sessions, all three buckets at 0, "Balanced", and 7 recovery days |
| Scenarios.SingleSessionSummary | components/Planner.tsx:283-317 | a single session of the only workout gives 1 session, one count at its level, its focus as dominant, and 6 recovery days |

## Left out

- **Rendering.** React rendering, hooks, `useMemo` caching and the JSX are presentation. Each handler is a plain state-to-state function instead.
- **Persistence I/O.** Reading and writing `localStorage`, `JSON.parse`/`JSON.stringify`, the `try`/`catch` around them and the `hydrated` flag are I/O. The parsed snapshot (or its absence, which also covers a parse failure) is a parameter of `Seed.Hydrate`.
- **Malformed snapshots.** A snapshot whose schedule holds `null` for a day, or keys beyond the seven days, is not modelled. The schedule is keyed by the seven-day enum.
- **Id generation.** `safeId` relies on `crypto.randomUUID` and `Math.random`. Fresh ids are parameters; the lemmas that need freshness require it.
- **UI pointers and inputs.** The `assignWorkoutId` pointer is not part of the planner state. That covers its default effect, the pointer update after a create, and clearing `assignNotes` after an assign. `selectedDay`, `assignTime` and `assignNotes` become the handlers' parameters.
- **Display-only data.** The exercise library, its display lookups and their fallback, day labels and affirmations, and `TIME_SLOTS` are not modelled.
- **JavaScript record quirks.** Integer-like keys, which `Object.entries` lists first, are not modelled. Nor is the `in` operator seeing inherited keys such as `"toString"` in `handleToggleExercise`. The builder's record is an association list in insertion order.
- **Schedule read order.** `Object.values(state.schedule)` is read in `DAYS` order rather than in the schedule's own key order. The two agree for every schedule that the built-in state, the merge and the handlers produce.
- **Sort implementation.** `Summary.Best` does not model the sort itself, only the head of a stable descending sort. The first-seen tie-break relies on `Array.prototype.sort` being stable, which ECMAScript 2019 requires.
- **Whitespace set.** `Text.IsSpace` enumerates ECMAScript's WhiteSpace and LineTerminator code points as fixed by Unicode's category Zs at the time of writing. Later Unicode additions to that category are not tracked.
