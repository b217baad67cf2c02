# Pathfinder demo — a verified model of its decision and list logic

Pathfinder is a small personal-productivity web app with four pages backed by browser
local storage. This project models the logic inside those pages and proves what it promises:

- **Today** (`Today`, `today.dfy`). The 1..5 rating helpers and the daily coach, which is an
  ordered first-match-wins cascade over four ratings that picks one of five fixed templates.
  It also covers the one-time migration of legacy `stress` records into the calm-based v2
  schema (`calm = 6 - stress`). Saving upserts the pulse by date into a history capped at 30.
- **Habits** (`Habits`, `habits.dfy`). Seeding a habit from a suggestion link, with duplicates
  blocked by token, or else by text and due date. Also the add, toggle-done-today and
  remove-by-id handlers, and the list shown sorted by due date.
- **Weekly** (`Weekly`, `weekly.dfy`). Seven-day averages, the weekly best move (a threshold
  cascade), the three proposed habits (one per axis), the editable habit list, the stored
  plan, and the weekday offset back to Monday.
- **Decisions** (`Decisions`, `decisions.dfy`). The decision log: newest first, capped at 50,
  with the six newest listed.
- **Decision guidance** (`DemoAi`, `demo_ai.dfy`). Four canned sentences chosen by a
  "reversible" flag and by whether an assumption was named.

Support modules: `Wrappers` (Option, Min), `JsStrings` (the JavaScript `trim`, `toLowerCase`,
`includes` and integer-to-string the pages use), `Ratings` (the pulse record and the mean the
two pages take of its ratings), and `Sequences` (`filter` and order preservation).

Each page whose handlers replace React state is a class. Its fields are the component state
plus the value local storage holds under the page's key. Each handler is a method whose
`ensures` gives the whole new state, in terms of a pure function of the old state. The
properties are proved about those functions as lemmas. Fresh ids (`crypto.randomUUID`),
timestamps, "today", "tomorrow" and the default due date are method parameters.

Averages are exact rationals (`real`). Ratings are integers and a week has at most seven
of them. So each comparison of an average with 2.6, 3.0, 3.4 or 3.7 gives the same answer in
IEEE doubles as in exact arithmetic: rounding is monotone, and a mean of at most seven
integers is either exactly on a threshold or far further from it than one unit of rounding.

## Model

| member | source | states |
|---|---|---|
| Today.Clamp15 | app/today/page.tsx:36-38 | the result is always on the 1..5 scale, is the input itself on that scale, and is 1 below it and 5 above it |
| Ratings.Sum | app/weekly/page.tsx:41-44 | the `reduce` total, folding from the left (on 1..5 ratings it lies between the count and five times the count, in SumWithinScale) |
| Today.Label5 | app/today/page.tsx:39-41 | every rating gets one of the five labels; rating n on the scale gets the n-th label, anything below gets "Very low" and anything above "Very high" |
| Ratings.Mean | app/today/page.tsx:42-45 | the mean of no ratings is 0; otherwise the mean times the count is the sum |
| Ratings.MeanWithinScale | app/weekly/page.tsx:41-44 | the mean of a non-empty list of 1..5 ratings lies in [1, 5] |
| Ratings.SumWithinScale | app/weekly/page.tsx:41-44 | the total of n ratings on the 1..5 scale lies between n and 5n |
| Ratings.Energies | app/weekly/page.tsx:85 | `pulses.map(p => p.energy)`: one energy rating per pulse, in order |
| Ratings.Calms | app/weekly/page.tsx:86 | `pulses.map(p => p.calm)`: one calm rating per pulse, in order |
| Ratings.Moods | app/weekly/page.tsx:87 | `pulses.map(p => p.mood)`: one mood rating per pulse, in order |
| Ratings.Focuses | app/weekly/page.tsx:88 | `pulses.map(p => p.focus)`: one focus rating per pulse, in order |
| Today.FirstFiring | app/today/page.tsx:56-104 | the ranked-rule reading of the cascade: it yields the first rule of the list that fires, with no earlier rule firing, or none exactly when no rule fires |
| Today.RuleOrderSelects | app/today/page.tsx:57-104 | for every pulse the ranked list calm, energy, sprint, mood, default yields a template (the last rule always fires), and it yields exactly the one the if-cascade picks |
| Today.SuggestFromPulse | app/today/page.tsx:47-105 | the suggestion is the template of the first rule in the ranked list that fires on the pulse, with that pulse's ratings in its rationale |
| Today.Render | app/today/page.tsx:58-104 | the five return literals: each template's fixed title, best move, two micro-steps and tags, with the rationale carrying the pulse's ratings |
| Today.Fires | app/today/page.tsx:57-87 | each rule's own condition read alone: calm at most 2, energy at most 2, focus at least 4 with energy and calm at least 3, mood at most 2, and the default that always holds |
| Today.CalmLowResets | app/today/page.tsx:57-65 | calm at most 2 gives "Reset and lower load", whatever the other ratings are |
| Today.EnergyLowRecovers | app/today/page.tsx:67-75 | calm above 2 and energy at most 2 gives "Recover energy" |
| Today.SprintBeforeMood | app/today/page.tsx:77-95 | calm at least 3, energy at least 3 and focus at least 4 give "Deep work sprint", even when mood is low |
| Today.MoodDecidesTheRest | app/today/page.tsx:87-104 | when none of the first three rules fires, the result is "Lift mood gently" for mood at most 2 and "Maintain momentum" otherwise |
| Today.SuggestionIgnoresHistory | app/today/page.tsx:48-54 | the recent-history argument never changes the suggestion: its averages are computed and unused |
| Today.TitleIdentifiesTemplate | app/today/page.tsx:57-104 | the five templates have five distinct titles, so a title names exactly one template |
| Today.SuggestExamples | app/today/page.tsx:77-104 | calm 4, energy 4, focus 5, mood 3 gives the sprint; all ratings 3 give "Maintain momentum" |
| Today.NumberOr3 | app/today/page.tsx:147-150 | a numeric field keeps its value and a missing or non-numeric field becomes 3 |
| Today.MigratePulse | app/today/page.tsx:145-151 | a migrated record keeps its date; its calm is 6 minus its stress, or 3 when stress is not a number; energy, mood and focus keep a numeric value and become 3 otherwise |
| Today.Migrate | app/today/page.tsx:145-151 | the migration maps each legacy record in place and keeps the list's length |
| Today.MigrateKeepsDatesAndScale | app/today/page.tsx:145-151 | migration keeps length and dates, sends valid legacy records to valid v2 records, and turns each missing or non-numeric field into 3 (stress into calm 3) |
| Today.MigrateRoundTrip | app/today/page.tsx:145-151 | on a legacy record with numeric ratings on the scale, mapping the migrated record back gives the original record |
| Today.MigrateInvertsPolarity | app/today/page.tsx:148 | more legacy stress always gives less calm |
| Today.LoadHistory | app/today/page.tsx:129-160 | a non-empty v2 list is used as it is and nothing is written; otherwise a non-empty legacy list whose first record has `stress` is migrated, and the migrated list is what is written under the v2 key; otherwise the history is empty and nothing is written |
| Today.V2IsPreferred | app/today/page.tsx:131-140 | with a non-empty v2 list the legacy key makes no difference and no migration is written |
| Today.FindByDate | app/today/page.tsx:137 | finds the first pulse with the date, or none exactly when no pulse has that date |
| Today.DropDate | app/today/page.tsx:170 | keeps exactly the pulses of other dates, in a list no longer than the history |
| Today.DropDateCounts | app/today/page.tsx:170 | every pulse of another date is kept as many times as it occurs in the history, and no pulse of that date is kept |
| Today.DropDateIsSubsequence | app/today/page.tsx:170 | the filtered history keeps the old order |
| Today.DropAbsentDate | app/today/page.tsx:170 | dropping a date no pulse has leaves the history unchanged |
| Today.Upsert | app/today/page.tsx:174-175 | after an upsert the new pulse heads the history and the length is at most 30 |
| Today.UpsertShape | app/today/page.tsx:175 | after an upsert no other entry has the new pulse's date, the rest is the first older entries of other dates in their old order, and the length is the smaller of 30 and one more than the entries kept |
| Today.UpsertKeepsOtherDates | app/today/page.tsx:175 | below the cap, no pulse of another date is lost |
| Today.UpsertSameDateReplaces | app/today/page.tsx:174-177 | saving a second pulse for the same date replaces the first: the result is as if only the second were saved |
| Today.UpsertOverOwnDate | app/today/page.tsx:174-175 | upserting over a history of at most 30 whose head has the same date and whose rest has none replaces just the head |
| Today.UpsertKeepsDistinctDates | app/today/page.tsx:175 | a history with at most one pulse per date keeps that property under an upsert |
| Today.DropDateKeepsDistinct | app/today/page.tsx:170 | filtering a history with at most one pulse per date keeps that property |
| Today.TodayPage.constructor | app/today/page.tsx:108-120 | the page starts with an empty history, a form at 3 on every slider for today, and no save time |
| Today.TodayPage.Load | app/today/page.tsx:129-161 | the history becomes the loaded one; the v2 key gets the migrated list when there was a migration; the form shows today's saved pulse when there is one |
| Today.TodayPage.SetRating | app/today/page.tsx:163-166 | a slider changes exactly its own rating of the form |
| Today.TodayPage.Submit | app/today/page.tsx:174-179 | the history becomes the upsert of the form's pulse, is stored under the v2 key, and the save time is set |
| Today.TodayPage.LiveSuggestion | app/today/page.tsx:169-172 | the live card is the coach's answer for the pulse on the form, and its title is that of the first firing rule's template; which history is passed as the recent pulses makes no difference |
| JsStrings.TrimStart | app/habits/page.tsx:84 | removes exactly the leading whitespace and keeps a suffix |
| JsStrings.IsWhitespace | app/habits/page.tsx:84 | the characters `trim` strips: ECMAScript's white space (tab, vertical tab, form feed, space, no-break space, the Zs space separators, the byte order mark) and line terminators (line feed, carriage return, line and paragraph separators) |
| JsStrings.TrimEnd | app/habits/page.tsx:84 | removes exactly the trailing whitespace and keeps a prefix |
| JsStrings.Trim | app/habits/page.tsx:84 | the trimmed string is no longer and neither begins nor ends with whitespace |
| JsStrings.TrimIsInfix | app/habits/page.tsx:84 | the trimmed string is a contiguous piece of the input with only whitespace around it |
| JsStrings.TrimEmptyIffBlank | app/habits/page.tsx:48 | a string trims to the empty string if and only if it is all whitespace |
| JsStrings.TrimIdempotent | app/habits/page.tsx:57 | trimming twice is trimming once |
| JsStrings.ToLower | lib/demo_ai.ts:10 | lower-casing keeps the length and maps each character |
| JsStrings.ToLowerIdempotent | lib/demo_ai.ts:10 | lower-casing twice is lower-casing once |
| JsStrings.ToLowerIgnoresCase | lib/demo_ai.ts:10 | strings that agree up to letter case lower-case to the same string |
| JsStrings.IncludesIffOccurs | lib/demo_ai.ts:10 | `includes` holds if and only if the searched string occurs at some position |
| JsStrings.Includes | lib/demo_ai.ts:10 | `String.prototype.includes`: the searched string starts at some position (proved in IncludesIffOccurs) |
| JsStrings.IncludesInfix | lib/demo_ai.ts:15-17 | a string placed between two others is included in the whole |
| JsStrings.NatToString | lib/demo_ai.ts:23 | a natural number renders as a non-empty string of decimal digits without a leading zero |
| JsStrings.NatToStringRoundTrip | lib/demo_ai.ts:23 | reading the rendered digits back gives the number |
| JsStrings.IntToString | lib/demo_ai.ts:23 | an integer renders with a leading minus exactly when negative, followed by the digits of its magnitude |
| Sequences.Filter | app/habits/page.tsx:111 | `filter` keeps only elements that pass its test, keeps every element that passes, and is no longer than its input |
| Sequences.FilterCounts | app/habits/page.tsx:111 | `filter` keeps every passing element as many times as it occurs and no failing element |
| Sequences.FilterKeepsAll | app/habits/page.tsx:105 | filtering a list whose every element passes changes nothing |
| Sequences.FilterSkipsHead | app/today/page.tsx:170 | an element that fails the test is not kept: filtering skips past it |
| Sequences.FilterIsSubsequence | app/habits/page.tsx:111 | `filter` keeps the kept elements in their order |
| Habits.SeedDueDate | app/habits/page.tsx:50-51 | the seeded due date is the `due` parameter when it is 10 characters long, and tomorrow otherwise |
| Habits.Given | app/habits/page.tsx:51-65 | JavaScript truthiness of a query parameter: present and not the empty string |
| Habits.BlankSeed | app/habits/page.tsx:48 | a missing seed or one that trims to empty seeds nothing |
| Habits.SeedPresent | app/habits/page.tsx:56-57 | with a token, some habit carries it; without one, some habit has the trimmed text and the due date |
| Habits.HasSource | app/habits/page.tsx:56 | some habit of the list carries the token as its source |
| Habits.HasTextAndDue | app/habits/page.tsx:57 | some habit of the list has that text and that due date |
| Habits.Seed | app/habits/page.tsx:47-72 | a blank seed changes nothing; otherwise the list in use is the current one, or the stored one when the current one is empty; a seed already present there (by token when given, else by trimmed text and due date) adds nothing, and otherwise exactly one saved habit is put at the head, with the trimmed text, no done dates and the token as its source |
| Habits.SeedIsPresentAfter | app/habits/page.tsx:56-70 | after a non-blank seed the list is non-empty and the seed is present in it |
| Habits.SeedIdempotent | app/habits/page.tsx:53-71 | following the same link twice, with the same tomorrow, gives the list that the first visit gave, whatever fresh id and creation time the second sees, and writes nothing more |
| Habits.SeenTokenAddsNothing | app/habits/page.tsx:56 | a token some habit in the list in use already carries adds nothing and writes nothing: the list in use is returned unchanged |
| Habits.NewTokenAddsOne | app/habits/page.tsx:56-68 | a new token with a non-blank seed adds exactly one habit carrying that token, even if text and date repeat an old habit |
| Habits.SeedKeepsSourcesUnique | app/habits/page.tsx:56-68 | seeding never gives two habits the same token |
| Habits.WithoutDay | app/habits/page.tsx:105 | removing a day keeps every other date and keeps no copy of that day |
| Habits.ToggleDay | app/habits/page.tsx:104-105 | today's membership in the done dates flips, and every other date keeps its membership |
| Habits.ToggleTwiceRestores | app/habits/page.tsx:104-105 | ticking and unticking a day that was not done gives back exactly the old dates |
| Habits.ToggleDone | app/habits/page.tsx:100-106 | the list keeps its length; habits with another id are unchanged; a habit with the id changes only its done dates, where today's membership flips and every other date keeps its membership |
| Habits.RemoveById | app/habits/page.tsx:110-112 | after removal no habit has the id, and every habit with another id is still there |
| Habits.RemoveKeepsOrder | app/habits/page.tsx:111 | the remaining habits keep their order |
| Habits.RemoveAbsentId | app/habits/page.tsx:111 | removing an id no habit has changes nothing |
| Habits.DateLeTotal | app/habits/page.tsx:80 | any two due dates are ordered one way or the other |
| Habits.DateLe | app/habits/page.tsx:80 | `a.due.localeCompare(b.due) <= 0`, read as code-point lexicographic order |
| Habits.DateLeTransitive | app/habits/page.tsx:80 | the due-date order is transitive |
| Habits.InsertByDue | app/habits/page.tsx:80 | inserting adds exactly that habit to the contents |
| Habits.InsertByDueSorted | app/habits/page.tsx:80 | inserting into a list sorted by due date keeps it sorted |
| Habits.SortByDue | app/habits/page.tsx:79-81 | the upcoming view is a permutation of the habits, sorted non-decreasingly by due date |
| Habits.HabitsPage.constructor | app/habits/page.tsx:38-40 | the page starts with no habits and an empty form due three days out |
| Habits.HabitsPage.LoadStored | app/habits/page.tsx:42-44 | on mount the list becomes what storage holds |
| Habits.HabitsPage.ApplySeed | app/habits/page.tsx:47-72 | the list becomes the seed result and storage is written only when a habit was added; a blank seed changes nothing |
| Habits.HabitsPage.EditDraft | app/habits/page.tsx:121-127 | typing sets the form's text and due date |
| Habits.HabitsPage.AddHabit | app/habits/page.tsx:83-98 | a blank text changes nothing; otherwise one habit with the trimmed text and the form's date heads the saved list, and the form is reset |
| Habits.HabitsPage.ToggleDoneToday | app/habits/page.tsx:100-108 | the list becomes the toggled list and is saved |
| Habits.HabitsPage.RemoveHabit | app/habits/page.tsx:110-112 | the list becomes the list without that id and is saved |
| Habits.HabitsPage.Upcoming | app/habits/page.tsx:79-81 | the view shows the same habits, sorted by due date |
| Weekly.Summarize | app/weekly/page.tsx:82-92 | the day count is the smaller of 7 and the stored count, so at most 7, and an empty history gives all-zero averages |
| Weekly.SummaryAverages | app/weekly/page.tsx:82-90 | each average is the mean of that rating over the first seven pulses (Mean: the mean times the count is the sum, and the mean of none is 0) |
| Weekly.SummaryWithinScale | app/weekly/page.tsx:83-90 | over valid pulses, every average of a non-empty week lies in [1, 5] |
| Weekly.SummaryIgnoresOlderPulses | app/weekly/page.tsx:82 | pulses beyond the first seven do not affect the summary |
| Weekly.SuggestWeeklyBestMove | app/weekly/page.tsx:46-54 | the result is always one of the five weekly moves |
| Weekly.WeeklyRuleOrder | app/weekly/page.tsx:49-53 | each move is chosen exactly when its own rule holds and no rule above it does, in the order calm at most 2.6, energy at most 2.6, focus at least 3.7 with calm at least 3.0, mood at most 2.6, then consistency |
| Weekly.EmptyWeekReducesLoad | app/weekly/page.tsx:41-49 | a week with no pulses averages 0 and so asks to reduce load |
| Weekly.BoundaryWeek | app/weekly/page.tsx:49 | calm ratings 3, 3, 2, 3, 2 average exactly 2.6, and the inclusive threshold then asks to reduce load |
| Weekly.ProposeHabits | app/weekly/page.tsx:56-75 | the proposal built push by push is always exactly the 3 habits of Proposals: the calm habit, the energy habit, the focus-or-mood habit |
| Weekly.Proposals | app/weekly/page.tsx:56-75 | the three proposals in the order calm, energy, focus-or-mood |
| Weekly.CalmHabit | app/weekly/page.tsx:62-63 | the reset habit when the calm average is at most 3.0, the decompression habit otherwise |
| Weekly.EnergyHabit | app/weekly/page.tsx:66-67 | the daylight habit when the energy average is at most 3.0, the walk habit otherwise |
| Weekly.FocusOrMoodHabit | app/weekly/page.tsx:70-72 | the sprint when the focus average is at least 3.4, else the connection habit when the mood average is at most 3.0, else the plan-tomorrow habit |
| Weekly.ThirdHabitIsSprintIff | app/weekly/page.tsx:70-72 | the third habit is the sprint if and only if the focus average is at least 3.4; otherwise the mood average decides |
| Weekly.ProposalsDistinct | app/weekly/page.tsx:61-72 | the three proposed habits are always different from one another |
| Weekly.ReplaceAt | app/weekly/page.tsx:123-125 | an edit keeps the length, changes no other position, and puts the value at the index when it is in range |
| Weekly.ReplaceAtUndo | app/weekly/page.tsx:124 | writing back the old text undoes an edit |
| Weekly.RemoveAt | app/weekly/page.tsx:128 | removing an index that is in range drops exactly that position and shifts the rest down one; an index out of range, negative or too large, changes nothing |
| Weekly.RemoveAtKeepsOrder | app/weekly/page.tsx:128 | the remaining habits keep their order |
| Weekly.RemoveAtIsSubsequence | app/weekly/page.tsx:128 | the list with one in-range position cut out is a subsequence of the list |
| Weekly.AddThenRemoveLast | app/weekly/page.tsx:127-128 | adding an empty row and removing it gives the list back |
| Weekly.MondayOffset | app/weekly/page.tsx:33-36 | for every weekday the offset is in [-6, 0], lands on a Monday, and is the nearest such offset that is not in the future |
| Weekly.WeeklyPage.constructor | app/weekly/page.tsx:77-80 | the page holds the first seven stored pulses, and starts unconfirmed with no habits and no plan shown |
| Weekly.WeeklyPage.LoadPlan | app/weekly/page.tsx:82-106 | the habits are the three proposals for the summary of the page's pulses, unless a plan for this week is stored, in which case that plan, its confirmation and its habits (or the proposals when it has none) are shown |
| Weekly.WeeklyPage.Confirm | app/weekly/page.tsx:82-121 | a confirmed plan is stored and shown, holding the summary of the page's pulses, the weekly move for that summary and the current habits |
| Weekly.WeeklyPage.UpdateHabit | app/weekly/page.tsx:123-125 | the habits become the edited list |
| Weekly.WeeklyPage.AddHabit | app/weekly/page.tsx:127 | one empty habit is appended |
| Weekly.WeeklyPage.RemoveHabit | app/weekly/page.tsx:128 | the habits become the list without that position |
| Decisions.WithId | app/decisions/page.tsx:36 | a non-empty id is kept, and the fresh id is used only when the id is empty |
| Decisions.PrependCapped | app/decisions/page.tsx:37 | after a save the saved decision heads the log, the length is the smaller of 50 and one more than before, and the rest is a prefix of the old log in its order |
| Decisions.PrependCappedTwice | app/decisions/page.tsx:37 | two saves put both decisions in front, newest first, followed by the newest of the old log up to the cap |
| Decisions.FullLogDropsOldest | app/decisions/page.tsx:37 | a save to a full log drops exactly its oldest entry |
| Decisions.Recent | app/decisions/page.tsx:102 | the recent list is the first min(6, n) decisions of the log |
| Decisions.BlankDecision | app/decisions/page.tsx:22-29 | the blank form: the given id and date, and four empty text fields |
| Decisions.SavedDecisionIsShown | app/decisions/page.tsx:37 | right after a save the saved decision heads the recent list |
| Decisions.DecisionsPage.constructor | app/decisions/page.tsx:21-29 | the page starts with an empty log and a blank form dated today |
| Decisions.DecisionsPage.LoadStored | app/decisions/page.tsx:31-33 | on mount the log becomes what storage holds |
| Decisions.DecisionsPage.EditDraft | app/decisions/page.tsx:59-78 | typing sets the four text fields of the form, and its id and date stay |
| Decisions.DecisionsPage.Submit | app/decisions/page.tsx:35-50 | the form, with an id, goes in front of the capped log, the log is stored, and the form is reset with a new id |
| DemoAi.DemoGuidance | lib/demo_ai.ts:9-26 | headline and guardrail are each one of two fixed strings, chosen by the reversibility flag; the next step quotes the assumption when one is named and is the generic text otherwise; the note begins with the domain |
| DemoAi.IsReversible | lib/demo_ai.ts:10 | the flag holds when the lower-cased reversibility text contains "easy" or "medium" |
| DemoAi.NextStepQuotes | lib/demo_ai.ts:15-17 | the next step for a named assumption contains that assumption in quotes |
| DemoAi.HeadlineAgreesWithGuardrail | lib/demo_ai.ts:11-21 | the action headline comes with the time-box guardrail and the slow-down headline with the pilot guardrail, always |
| DemoAi.ReversibleIgnoresCase | lib/demo_ai.ts:10 | the reversibility test does not see letter case |
| DemoAi.NextStepRoundTrip | lib/demo_ai.ts:15-17 | the assumption can be read back from the next step exactly when one was named, and it comes back unchanged |
| DemoAi.NoteShowsConfidence | lib/demo_ai.ts:23 | for a non-negative confidence, the note is the domain and the confidence out of 100, and the decimal confidence reads back as the input |

## Left out

- `lib/storage.ts` (`load`, `save`, `uid`): each page's stored value is a field of its class. A
  missing key and unparsable JSON both read as the fallback value. `uid` is not used by the core.
- `crypto.randomUUID`, `new Date()`, `Date.now()` and `isoDate`/`addDays`/`daysLeft`: fresh ids,
  timestamps, today, tomorrow and default due dates are parameters. Calendar arithmetic is not
  modelled, including the `Date` mutation in `mondayOfThisWeek`; of that, only the weekday
  offset is modelled.
- React effect scheduling, `alert`, navigation, the habit hand-off URL and its encoding, and the
  `toFixed(1)` display of averages: presentation.
- `public/sw.js`, `components/*`, `app/page.tsx` and `app/layout.tsx`: caching shell and layout.
- The `why` sentences: kept as a template tag with the ratings it interpolates, not as text.
- Ratings are integers, which is what the sliders produce. `label5` on a non-integer is not modelled.
- The v2 key holds `Pulse` records, so its `"calm" in v2[0]` shape test always holds in the
  model. A v2 key holding legacy-shaped data is not represented.
- Today.LoadHistory: when the first element of a stored list is not an object, the source's `"calm" in v2[0]` (or `"stress" in old[0]`) throws a TypeError. The model's stored lists hold only records, so that throw is not modelled; a stored value that is not an array is modelled and reads as no data.
- JsStrings.ToLower: maps only the ASCII capitals; JavaScript's full Unicode case mapping is not modelled.
- JsStrings.IntToString: integers only. JavaScript's rendering of non-integer numbers (the confidence is a `number`) is not modelled, nor its exponent form for magnitudes of 10^21 and above.
- Habits.SeedDueDate: the `length === 10` test counts code points, where JavaScript counts
  UTF-16 code units. The two agree on ISO dates.
- Weekly.WeeklyPage.LoadPlan: `mondayOfThisWeek()` is the `weekStart` parameter. Of its date arithmetic, only the weekday offset (MondayOffset) is modelled.
- Habits.SortByDue: `localeCompare` is modelled as code-point order, which agrees with it on
  `YYYY-MM-DD` dates. The contract states sorted and a permutation, but not that habits with
  equal due dates keep their order (`Array.prototype.sort` is stable).
- Decisions.DecisionsPage.Submit: the Save button is disabled while the decision text is blank.
  That is a rendering attribute; `submit` itself does not check it, and the model does not either.
