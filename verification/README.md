# NutriTrack controller model

A Dafny model of the core of a small browser app that sends a food
description to a generative-AI service, shows the structured nutrition
estimate it returns, and keeps a running daily log mirrored to the browser's
local storage.

What is modelled:

- **Records** (`types.dfy`, module `Types`): `NutritionData` and `LogEntry`.
  A `LogEntry` is a `NutritionData` plus an identifier, a capture time in
  epoch milliseconds and a quantity. Nutrient quantities and the health score
  are `real`. The documented 1–100 range of the health score is a predicate
  (`ValidHealthScore`), never a precondition, because nothing enforces it.
- **The blank-query guard** (`whitespace.dfy`, module `Whitespace`):
  JavaScript's `trim`, with the ECMAScript WhiteSpace and LineTerminator code
  points, proved to return the empty string exactly when the query is all
  whitespace.
- **Log operations** (`dailylog.dfy`, module `DailyLog`): removal by
  identifier as a filter, with identifier uniqueness.
- **Totals** (`totals.dfy`, module `Totals`): the four `reduce` calls as a
  left fold, proved equal to a structural sum.
- **Storage** (`storage.dfy`, module `Storage`): the slot under the key
  `nutritrack_log`, abstracted to `Absent | Corrupt | Stored(entries)`.
- **Controller** (`app.dfy`, module `App`): the state (query, loading, error,
  current result, daily log) and its transitions: typing, search, commit,
  remove and reset. The analysis call is an input, `Success(record) | Failure`.
  The identifier and clock reading of a commit are inputs too.
- **Session** (`session.dfy`, module `Session`): mount, the save-on-change
  effect and runs of user events. The mirror invariant and id uniqueness are
  proved over any run.
- **Health-score badge** (`nutritioncard.dfy`, module `NutritionCard`):
  `getScoreColor` as a three-band classifier.

Modelling decisions where the declared types and the code differ:

- `types.ts` declares all seven numeric fields as plain numbers. Six of them
  are nutrient figures; the seventh is the health score. The response
  schema (`services/gemini.ts:33`) leaves fiber and sugar out of its required
  list. The record is taken from `JSON.parse` without any check, and the
  totals guard protein, carbohydrates and fat with `|| 0`. So fiber, sugar,
  protein, fat and carbohydrates are `Option<real>` here. Calories stays a
  plain `real`: the code has no fallback for it, and a missing value would
  make the JavaScript total `NaN`, which the model cannot express.
- Removal filters out every entry carrying the identifier, not just one,
  because that is what the code does. With unique identifiers, exactly one
  entry goes (`DailyLog.RemoveUniquePresent`).
- Identifier uniqueness is not guaranteed by the code. The model proves it is
  kept only when every committed identifier is fresh
  (`Session.RunKeepsUnique`). `App.CommitDuplicateBreaksUnique` shows that
  committing under any identifier already in the log produces a duplicate.
- At mount, the load effect runs first and decodes the stored value. The
  save effect then writes the still-initial empty log. At the next render
  the decoded log is installed and the save effect writes it back, so the
  slot ends up holding the loaded log. An absent or undecodable stored value
  leaves the log empty, and the slot ends up overwritten with the empty log
  (`Session.Start`).

## Model

| member | source | states |
|---|---|---|
| Whitespace.Trim | App.tsx:34 | `query.trim()` is empty exactly when every character is ECMAScript whitespace; a non-empty result neither starts nor ends with whitespace |
| Whitespace.TrimStart | App.tsx:34 | the leading part `trim` drops is all whitespace, and what it keeps is a suffix that does not start with whitespace |
| Whitespace.TrimEnd | App.tsx:34 | the trailing part `trim` drops is all whitespace, and what it keeps is a prefix that does not end with whitespace |
| Whitespace.TrimBothEnds | App.tsx:34 | trimming both ends leaves nothing iff the string is all whitespace |
| App.SetQuery | App.tsx:114 | typing replaces the query and leaves log, result, loading and error alone |
| App.SearchRequest | App.tsx:34-39 | no call is issued iff the query is all whitespace; otherwise the call gets the query untrimmed |
| App.BeginSearch | App.tsx:36-37 | while the call is outstanding the page is loading and the old error is cleared; result and log are kept |
| App.EndSearch | App.tsx:38-46 | success installs the record, failure sets the fixed message and keeps the result; loading ends either way |
| App.Submit | App.tsx:32-47 | blank query: state unchanged; success: result is the record, no error, not loading; failure: fixed message, result unchanged, not loading; query and log never change |
| App.BlankSubmitIsNoOp | App.tsx:34 | after typing a whitespace-only query, a search issues no call and changes nothing, whatever the outcome |
| App.FailureKeepsResult | App.tsx:41-46 | a failed search never changes the displayed result or the log |
| App.Commit | App.tsx:49-59 | with no result: no-op; otherwise the log grows by one at the front, the head carries the record, the given id and time and quantity 1, the tail is the old log, and result and query are cleared |
| App.CommitFreshKeepsUnique | App.tsx:51-57 | a commit under an identifier not in the log keeps identifiers unique |
| App.CommitDuplicateBreaksUnique | App.tsx:53 | a commit under any identifier already in the log produces a duplicate |
| App.Remove | App.tsx:66-68 | the log is the id filter: it keeps exactly the entries whose id differs, in their original order, shrinks by the number removed, and is unchanged for an absent id; nothing else changes |
| App.RemoveKeepsOrder | App.tsx:67 | removing from a log split in two removes from each part and joins the results in the same order |
| App.Reset | App.tsx:181 | the log becomes empty whatever it held; nothing else changes |
| DailyLog.RemoveId | App.tsx:67 | an entry survives iff it was in the log with a different id; the length drops by the count of entries with that id |
| DailyLog.RemoveAbsentId | App.tsx:67 | removing an id no entry carries leaves the log unchanged |
| DailyLog.RemoveIdAppend | App.tsx:67 | the filter distributes over concatenation, so survivors keep their relative order |
| DailyLog.RemoveIdSingleton | App.tsx:67 | one entry is dropped exactly when it carries the id |
| DailyLog.RemoveIdIdempotent | App.tsx:67 | removing an id twice equals removing it once |
| DailyLog.RemoveKeepPartition | App.tsx:67 | the surviving and the removed entries together are the whole log as a multiset, so their lengths add up too |
| DailyLog.UniqueIdsCons | App.tsx:57 | prepending keeps ids unique iff the new id is absent from the log |
| DailyLog.UniquePresentCountsOnce | App.tsx:67 | with unique ids, a present id occurs exactly once |
| DailyLog.RemoveUniquePresent | App.tsx:67 | with unique ids, removing a present id shortens the log by exactly one |
| DailyLog.RemoveIdKeepsUnique | App.tsx:67 | removal never introduces a duplicate id |
| Totals.Reduce | App.tsx:70-73 | the left fold of `reduce`; `Totals.ReduceIsSum` characterises it |
| Totals.ReduceIsSum | App.tsx:70-73 | the left-fold `reduce` from a start value equals that value plus the structural sum |
| Totals.SumAppend | App.tsx:70-73 | the sum over a concatenation is the sum of the parts' sums |
| Totals.Contribution | App.tsx:70-73 | a present protein, carbohydrate or fat value contributes itself and an absent one 0; calories contribute as they are |
| Totals.DailyTotals | App.tsx:70-73 | the four sidebar totals, one `reduce` from 0 each; `Totals.DailyTotalsAreSums` characterises them |
| Totals.DailyTotalsAreSums | App.tsx:70-73 | each of the four totals is the sum of its per-entry values |
| Totals.DailyTotalsEmpty | App.tsx:70-73 | every total of the empty log is 0 |
| Totals.DailyTotalsPrepend | App.tsx:70-73 | prepending an entry raises each total by exactly that entry's contribution |
| Totals.ReduceAppend | App.tsx:70-73 | one `reduce` from 0 over a concatenation is the sum of the two parts' reductions |
| Totals.SumRemove | App.tsx:67-73 | per figure, the sum over the surviving entries plus the sum over the removed entries is the sum over the log |
| Totals.ReduceRemove | App.tsx:67-73 | the same split holds for each `reduce` from 0 |
| Totals.DailyTotalsAppend | App.tsx:70-73 | the totals of a concatenation are the sums of the parts' totals |
| Totals.DailyTotalsRemove | App.tsx:67-73 | after removing an id, the remaining totals plus the removed entries' totals give the old totals |
| Totals.DailyTotalsNonNegative | App.tsx:70-73 | a log whose calories and present protein, carbohydrate and fat values are non-negative has no negative total |
| Storage.Save | App.tsx:28-30 | the saved slot holds a decodable log, and loading it gives back exactly that log |
| Storage.Load | App.tsx:16-25 | the load effect; `Storage.LoadFallsBackToEmpty` characterises it |
| Storage.LoadFallsBackToEmpty | App.tsx:16-25 | an absent or undecodable slot loads as the empty log; a decodable one loads as its entries |
| Storage.PersistLoadIdempotent | App.tsx:16-30 | loading what was persisted and persisting it again writes the same content |
| Session.Start | App.tsx:15-30 | mount seeds the log from a decodable slot and otherwise starts empty and overwrites the slot with the empty log; the slot mirrors the log; no result, no error, not loading |
| Session.Persist | App.tsx:27-30 | a log change is followed by a save, so the slot mirrors the new log |
| Session.Step | App.tsx:27-68 | every event keeps the slot equal to the in-memory log, and never leaves the page loading |
| Session.ResetIsDurable | App.tsx:181 | after a reset the log is empty and a reload finds the empty log |
| Session.RemoveIsDurable | App.tsx:66-68 | after a removal the log is the filtered log, and a reload finds it with no entry carrying the identifier |
| Session.TypeAndSearchKeepSlot | App.tsx:27-47 | typing and searching never write the slot; typing sets the query |
| Session.Run | App.tsx:27-68 | any sequence of events keeps the slot equal to the log and never leaves the page loading |
| Session.MirroredAfterAnyRun | App.tsx:15-30 | after mount and any events, the slot holds the log in memory |
| Session.ReloadRestoresLog | App.tsx:15-30 | reloading after any session restores exactly the log the session ended with |
| Session.StepKeepsUnique | App.tsx:49-68 | an event whose commit id is fresh keeps ids unique |
| Session.RunKeepsUnique | App.tsx:49-68 | if every commit id is fresh when used, ids stay unique through any sequence of events |
| Session.SearchThenCommit | App.tsx:32-73 | typing a non-blank query, a successful search and a commit put the record at the head with quantity 1, clear result and query, and raise every total by the record's contribution, calories by its calories |
| NutritionCard.ScoreBand | components/NutritionCard.tsx:12-16 | green iff score ≥ 80, yellow iff 50 ≤ score < 80, red iff score < 50 |
| NutritionCard.GetScoreColor | components/NutritionCard.tsx:12-16 | each score gets exactly one of the three class strings, by the same thresholds |
| NutritionCard.ScoreBandMonotone | components/NutritionCard.tsx:12-16 | a higher score never gets a worse band |
| NutritionCard.BandClassesInjective | components/NutritionCard.tsx:13-15 | the three bands render with distinct class strings |
| NutritionCard.ScoreBandBoundaries | components/NutritionCard.tsx:13-15 | 80 is green, 79 yellow, 50 yellow, 49 red |

## Left out

- The analysis service (`services/gemini.ts`): the SDK request and `JSON.parse` of the reply are foreign code. Its one local rule, that an empty reply is an error, is one of the causes folded into the `Failure` outcome.
- A failing storage write: `localStorage.setItem` in the save effect (App.tsx:29) is unguarded, and a write that throws (quota exceeded, storage disabled) is not modelled. `Storage.Save` always succeeds, which is part of why the mirror invariant holds.
- JSON encoding of the log and the browser's storage object: storage is the abstract slot. A stored value that parses but is not an array of entries is not modelled. The code would install such a value as the log.
- Identifier generation (`Math.random().toString(36)`) and `Date.now()`: both are nondeterministic, so they are parameters of a commit. The identifier's format is not modelled.
- Actions taken while a search is outstanding: a search is one atomic transition, so the `loading` flag is true only inside it. The submit button is disabled while loading (App.tsx:120), but the previous result card and its add button stay on screen (App.tsx:157). Typing, committing, removing or resetting during a search is therefore possible in the app and not modelled.
- Floating-point arithmetic: quantities are exact reals. The model has no `NaN`, no rounding in the sums, and no `toFixed(0)` display rounding. A `NaN` health score would fall into the red band, and that is not modelled.
- The sidebar flag, its auto-open on narrow screens on the first commit, and all layout. These are presentation only. The suggestion buttons are not a separate event: each calls `setQuery` (App.tsx:138), which is the `Type` event (`App.SetQuery`).
- Diagnostics written to the console on load or search failure.
- The build configuration (`vite.config.ts`).
