# Brain Sparks session and scoring engine in Dafny

This project models the engine behind the Brain Sparks daily brain-training mini-games and proves properties of it:

- the four closed-form score functions, the per-kind normalisation, the brain-age estimate and the feedback classifier (`scoring.dfy`, `brain_age.dfy`);
- the daily-play streak and its label (`streaks.dfy`), over ISO 8601 instants (`iso_time.dfy`);
- the difficulty catalogue (`difficulty.dfy`);
- the browser key-value store and the persistence layer over it (`storage.dfy`):
  - the zod schemas, re-stated as explicit validators over a JSON datatype (`schema.dfy`, `json.dfy`);
  - the fail-safe `loadState` and the strict validate step of `importData`;
  - the saved in-progress session;
  - the language key;
  - `sortSessionsDescending`, built on a stable insertion sort (`sorting.dfy`);
- the session orchestrator `AppStateProvider`, a class with the two fields `state` and `activeSession` (`orchestrator.dfy`), together with the badge registry and `deriveBadges` (`badges.dfy`);
- the question generator and the answer counters of the arithmetic game (`arithmetic.dfy`), with the conversion of the typed answer to a number (`number_text.dfy`);
- the median, the trailing window and the `tap` state machine of the reaction game (`reaction.dfy`).

Modelling choices:

- JavaScript numbers are `real` where the source computes fractions (time left, accuracy, the median handed to the reaction score). They are `int` where the value is a whole number.
- `Math.round(x)` is `Floor(x + 1/2)`.
- JSON numbers (`JNum`) hold integers.
- Dates stay the texts the application stores. `new Date(text).getTime()` is `IsoTime.Parse`. It accepts the canonical form `YYYY-MM-DDTHH:MM:SS.sssZ` that the application writes, and gives None (JavaScript's invalid date) for anything else.
- `JSON.parse` and `JSON.stringify` are an injected pair of functions (`JsonModel.JsonCodec`). The round-trip lemmas assume that pair is lawful: parsing what was stringified gives it back, and the empty text does not parse.
- Randomness, `uuid`, the current day and `performance.now()` are parameters:
  - the shuffled order of the four test kinds is an input to `PickTests` and `StartDailySession`;
  - the `Math.random()` results one question consumes are a `Draws` value;
  - the milliseconds of a reaction are the argument of `Tap`.
- The text typed in the arithmetic answer box is the argument of `HandleSubmit`. `Number(input.trim())` is `NumberText.NumberOfText`: blank text is 0, a signed decimal literal is its value, and anything else is NaN (None).

Two behaviours of the code that the model keeps as written:

- `estimateBrainAge` rounds only at the end. For the scores `{arithmetic: 600, memory: 100}` it computes 77.51…, and `Math.round` makes that 78 (`Scoring.BrainAgeExample`).
- `loadState` copies the language key's text into `settings.lang` without checking it (src/logic/storage.ts:96-102). So `Settings.lang` is a string here:
  - the schema accepts only "en" and "nl";
  - a loaded state may hold any text in `lang`;
  - the save/load round trip is stated for states whose language is "en" or "nl" (`Schema.WellFormed`);
  - a state saved with any other language does not validate when loaded back, so loading gives the default state and the history is lost (`Storage.ForeignLanguageLosesHistory`).

## Model

| member | source | states |
|---|---|---|
| Scoring.Round | src/logic/scoring.ts:10 | `Math.round(x)` is the whole number within half a unit of x, rounding halves up |
| Scoring.ScoreArithmetic | src/logic/scoring.ts:3-6 | the score is never negative and never below 10·correct − 5·mistakes, since the time bonus is never negative; with time left and a non-negative base it is exactly base + round(2·timeLeft) |
| Scoring.ScoreArithmeticMonotone | src/logic/scoring.ts:3-6 | more correct answers or more time never lower the score, and more mistakes never raise it |
| Scoring.ScoreMemoryBounds | src/logic/scoring.ts:8-11 | for longest ≥ 0 the memory score lies in [15·longest, 25·longest] |
| Scoring.ScoreMemoryClampsAccuracy | src/logic/scoring.ts:8-11 | an accuracy above 1 scores like 1, and one at or below 0 scores exactly 15·longest |
| Scoring.ScoreReaction | src/logic/scoring.ts:13-16 | the reaction score is never negative, is 0 for medians of 500 ms or more, is at most 500 for non-negative medians, and is round(500 − median) below 500 |
| Scoring.ScoreReactionAtZero | src/logic/scoring.ts:13-16 | a 0 ms median scores 500 |
| Scoring.ScoreReactionStrictlyDecreasing | src/logic/scoring.ts:13-16 | on whole milliseconds in [0, 500] a slower median always scores less |
| Scoring.ScoreOddOneOut | src/logic/scoring.ts:18-21 | the odd-one-out score is never negative and never below 12·correct − 6·mistakes |
| Scoring.ScoreOddOneOutMonotone | src/logic/scoring.ts:18-21 | more correct answers or more time never lower the score, and more mistakes never raise it |
| Scoring.Spread | src/logic/scoring.ts:30-35 | every kind's spread is positive, so normalisation never divides by zero |
| Scoring.Clamp | src/logic/scoring.ts:37 | the result lies in [min, max], and a value already inside is returned unchanged |
| Scoring.NormaliseScore | src/logic/scoring.ts:39-43 | z·spread = score − baseline; z is 0 exactly at the baseline and positive exactly above it |
| Scoring.EstimateBrainAge | src/logic/scoring.ts:45-52 | for a non-empty score map the brain age is a whole number in [18, 80] |
| Scoring.BrainAgeAtBaselines | src/logic/scoring.ts:45-52 | a map whose every score is its kind's baseline gives exactly 70 |
| Scoring.BrainAgeExample | src/logic/scoring.ts:45-52 | arithmetic 600 with memory 100 gives 78 |
| Scoring.ScoreFeedback | src/logic/scoring.ts:54-59 | positive iff score ≥ baseline + spread, negative iff score < baseline − 0.4·spread, neutral iff in between |
| BrainAge.CalculateBrainAge | src/logic/brainAge.ts:4 | equals the estimate of the scoring module on every non-empty map, and so lies in [18, 80] |
| Streaks.UpdateStreak | src/logic/streaks.ts:5-24 | best never decreases; best ≥ current is preserved; any change records the new date as the last day |
| Streaks.UpdateStreakBranches | src/logic/streaks.ts:5-24 | the four branches: no previous day gives (1, max(1, best)); a difference of 0 days returns the streak unchanged; 1 day extends current and raises best; anything else resets current to 1 |
| Streaks.EarlierDateResets | src/logic/streaks.ts:11-23 | a date before the last played day (a negative difference) falls into the reset branch |
| Streaks.UpdateStreakIdempotent | src/logic/streaks.ts:11-14 | recording the same date twice equals recording it once |
| Streaks.StreakWalk | src/logic/streaks.ts:5-24 | from {0, 0, null}, playing on days D, D+1 and D+3 gives current 1, 2, 1 and best 1, 2, 2 |
| Streaks.NextCalendarDayExtends | src/logic/streaks.ts:11-22 | session dates written on consecutive calendar days parse, and they extend the streak by one |
| Streaks.NatText | src/logic/streaks.ts:29 | the decimal numeral of a natural number is a non-empty string of digits, without a leading zero, whose digits denote exactly that number |
| Streaks.IntText | src/logic/streaks.ts:29 | the text of an integer is non-empty, holds no space, and read back as a signed numeral it is that integer |
| Streaks.FormatStreakLabel | src/logic/streaks.ts:26-30 | the label is the current count, a space, then the singular word exactly when the count is 1 and the plural otherwise; its length is the count's, plus one, plus the word's, so an empty word still leaves the space |
| IsoTime.DayStartParses | src/state/AppStateProvider.tsx:80-87 | the start of a valid calendar day, written as a session date, is a valid instant that falls on a day boundary |
| IsoTime.ParseExample | src/logic/streaks.ts:6 | "2024-01-01T00:00:00.000Z" is 1704067200000 ms after the epoch |
| IsoTime.ParseRejects | src/logic/streaks.ts:6-7 | the model's instant reader rejects 30 February (as `new Date` does) and also a date without a time, which JavaScript would accept; the second is this model's narrowing, listed under "## Left out" |
| Difficulty.GetDifficultyConfig | src/logic/difficulty.ts:3-24 | every tier has 1 ≤ min ≤ max, a non-empty operator list, a positive trial count and minDelay < maxDelay; `/` is offered exactly on hard |
| Difficulty.OperationsNested | src/logic/difficulty.ts:5-17 | the operator sets grow from easy to normal to hard, and only hard has division |
| Difficulty.HarderIsHarder | src/logic/difficulty.ts:6-20 | from easy to normal to hard the memory start length strictly grows, the reveal time strictly shrinks and the odd-one-out duration strictly shrinks |
| Sorting.SortBy | src/logic/storage.ts:180-181 | the copy is sorted by the key, and is a permutation of the input of the same length |
| Sorting.SortInts | src/tests/Reaction.tsx:18 | `[...values].sort((a, b) => a - b)` is an ascending permutation of the values |
| Sorting.SortedUnique | src/tests/Reaction.tsx:18 | two ascending sequences with the same elements are equal, so the numeric sort's result is determined by the multiset of values |
| Schema.ValidateSettingsAccepts | src/logic/storage.ts:8-16 | a settings value is accepted iff it is an object and every settings key it holds has a value of that key's type or enum |
| Schema.ValidateSettingsOverrides | src/logic/storage.ts:8-16 | accepted settings hold "en" or "nl", and each setting is the stored value when present and the default from src/logic/storage.ts:55-63 otherwise |
| Schema.SettingsRoundTrip | src/logic/storage.ts:8-16 | settings with language "en" or "nl", written as JSON, validate back to themselves |
| Schema.StreakRoundTrip | src/logic/storage.ts:18-22 | a streak, written as JSON, validates back to itself, a null last day included |
| Schema.ValidateArray | src/logic/storage.ts:27-40 | the array is accepted iff every element is, and then the result holds, in order, each element's validated value |
| Schema.ArrayRoundTrip | src/logic/storage.ts:27-40 | elements that validate back individually also validate back as an array, in order |
| Schema.TestRoundTrip | src/logic/storage.ts:29-38 | a test score, written as JSON with or without meta, validates back to itself |
| Schema.SessionRoundTrip | src/logic/storage.ts:24-43 | a session, written as JSON, validates back to itself |
| Schema.ValidateStateAccepts | src/logic/storage.ts:45-53 | an accepted state had version 1 and both a streak and settings; its sessions, streak, settings and badges are exactly the validated values of those keys; missing session and badge lists became []; its language is "en" or "nl" |
| Schema.ForeignLanguageRejected | src/logic/storage.ts:8-10 | settings, and so a whole state, whose language is neither "en" nor "nl" fail the schema when written as JSON |
| Schema.StateRoundTrip | src/logic/storage.ts:45-53 | a state whose language is "en" or "nl", written as JSON, validates back to itself |
| Schema.DefaultStateValid | src/logic/storage.ts:65-71 | the default state passes the state schema unchanged |
| Schema.ActiveSessionToJson | src/logic/storage.ts:125-137 | the JSON of an in-progress session is truthy, so it loads back after being saved |
| Storage.SafeJsonParse | src/logic/storage.ts:73-81 | a missing or empty text, or one that does not parse, gives the fallback; otherwise the parsed value |
| Storage.DetectInitialLang | src/logic/storage.ts:107-111 | the detected language is "en" or "nl", and it is "nl" exactly when the browser language's first two letters are "nl" in any case |
| Storage.DefaultWithLang | src/logic/storage.ts:89 | the default state with only the language replaced |
| Storage.ImportState | src/logic/storage.ts:153-167 | the import succeeds iff the text parses and the parsed value passes the state schema, and then yields the validated state; otherwise it is an error, never a default |
| Storage.SortSessionsDescending | src/logic/storage.ts:180-181 | a permutation of the sessions ordered newest first by their dates' instants; the input is a value and is left untouched |
| Storage.Store.constructor | src/logic/storage.ts:83 | a store holding the given availability, items, JSON library and browser language |
| Storage.Store.LoadState | src/logic/storage.ts:85-105 | `loadState` returns the load of the current store and changes nothing: the default state without a window; the default with the detected language when the key is missing or empty |
| Storage.Store.SaveState | src/logic/storage.ts:113-118 | writes the JSON of the state under the main key and the language under the language key, nothing else; without a window nothing changes |
| Storage.Store.LoadActiveSession | src/logic/storage.ts:120-128 | the stored in-progress session is returned, without a schema check, when present, parsable and truthy; otherwise nothing |
| Storage.Store.SaveActiveSession | src/logic/storage.ts:130-138 | no session removes the active-session key; a session is stored as JSON under it; other keys are untouched |
| Storage.Store.ClearStorage | src/logic/storage.ts:169-174 | removes exactly the main and active-session keys |
| Storage.SaveThenLoad | src/logic/storage.ts:85-118 | loading right after saving a state whose language is "en" or "nl" gives that state back |
| Storage.GarbageLoadsDefault | src/logic/storage.ts:73-103 | unparseable stored text falls back to the default state, which validates; the language key, when stored, still overrides its language |
| Storage.InvalidLoadsDefault | src/logic/storage.ts:90-95 | stored JSON that fails the schema gives the default state with the detected language |
| Storage.AcceptedLoad | src/logic/storage.ts:96-104 | a load that passes the schema keeps the validated sessions, streak, badges and settings, with the language key overriding the language |
| Storage.LoadNeverFails | src/logic/storage.ts:85-105 | whatever the store holds, loading yields, apart from the language, the default state or the state the stored text validates to; the language is "en" or "nl" unless it was copied from the language key |
| Storage.ForeignLanguageLosesHistory | src/logic/storage.ts:85-118 | saving a state whose language is neither "en" nor "nl" and loading it back gives the default state with the detected language, so sessions, streak and badges are lost |
| Storage.SaveActiveThenLoad | src/logic/storage.ts:120-138 | after saving a session it loads back as its JSON; after saving none nothing loads |
| Storage.ClearThenLoad | src/logic/storage.ts:169-174 | after clearing, the language key is kept, loading gives the default with the detected language, and no in-progress session loads |
| Storage.ImportExportRoundTrip | src/logic/storage.ts:153-167 | the JSON of a state whose language is "en" or "nl" imports back to that state |
| Storage.LoadReadsTwoKeys | src/logic/storage.ts:85-105 | the loaded state depends only on the main key and the language key |
| Badges.FindKind | src/state/AppStateProvider.tsx:272 | `find` returns the first test of the kind, and nothing exactly when there is none |
| Badges.UnlockedFrom | src/state/AppStateProvider.tsx:289-291 | the unlocked ids are exactly the registry ids whose predicate holds |
| Badges.DedupeFrom | src/state/AppStateProvider.tsx:292-293 | the result has no duplicates and holds exactly the input's elements not already seen |
| Badges.DedupeKeepsPrefix | src/state/AppStateProvider.tsx:292-293 | a duplicate-free prefix passes through unchanged, and only the rest is filtered |
| Badges.DeriveBadges | src/state/AppStateProvider.tsx:288-294 | the merged list has no duplicates and holds exactly the existing badges and the registry ids whose predicates hold (reaction-quick: the first reaction test's medianMs is a number below 250); a duplicate-free existing list stays its prefix, so no badge is lost or reordered |
| Badges.DeriveBadgesIdempotent | src/state/AppStateProvider.tsx:288-294 | deriving again for the same session and streak adds nothing |
| Orchestrator.PickTests | src/state/AppStateProvider.tsx:46-49 | three tests of pairwise distinct kinds, taken in shuffled order, each pending with score 0 |
| Orchestrator.MergeMeta | src/state/AppStateProvider.tsx:148 | without new meta the old meta is kept; otherwise the keys are the union and new values override old ones |
| Orchestrator.UpdateAt | src/state/AppStateProvider.tsx:144-156 | replaces the test at the index and no other |
| Orchestrator.CompleteAt | src/state/AppStateProvider.tsx:141-162 | the current test becomes complete with the new score and merged meta; every other test is unchanged; the index grows by one |
| Orchestrator.SkipAt | src/state/AppStateProvider.tsx:171-190 | the index grows by one |
| Orchestrator.SkipIsCompleteWithZero | src/state/AppStateProvider.tsx:171-190 | skipping is completing with score 0 and no meta |
| Orchestrator.Completed | src/state/AppStateProvider.tsx:97 | keeps exactly the complete tests, never more than there are |
| Orchestrator.CompletedConcat | src/state/AppStateProvider.tsx:97 | filtering a concatenation is concatenating the filtered parts, so the complete tests keep their order |
| Orchestrator.CompletedAppend | src/state/AppStateProvider.tsx:97 | one more test adds itself, last, exactly when it is complete |
| Orchestrator.StripAll | src/state/AppStateProvider.tsx:107-110 | each test without its status, in order |
| Orchestrator.ScoreMap | src/state/AppStateProvider.tsx:100-103 | the map's kinds are exactly the kinds of the given tests |
| Orchestrator.ScoreMapLastWins | src/state/AppStateProvider.tsx:100-103 | a kind maps to the score of its last test |
| Orchestrator.Finalize | src/state/AppStateProvider.tsx:96-118 | nothing iff no test is complete; otherwise the entry keeps id and date, stores the complete tests without status, totals their scores and takes the brain age of exactly the complete kinds, in [18, 80] |
| Orchestrator.WithoutId | src/state/AppStateProvider.tsx:122 | keeps exactly the sessions with another id, never more than there are |
| Orchestrator.WithoutIdConcat | src/state/AppStateProvider.tsx:122 | filtering a concatenation is concatenating the filtered parts, so the kept sessions keep their order |
| Orchestrator.WithoutIdAppend | src/state/AppStateProvider.tsx:122 | one more session is dropped when it has the id and otherwise kept, last |
| Orchestrator.Upsert | src/state/AppStateProvider.tsx:122 | the new session is last and the only one with its id, and what precedes it is the history without that id |
| Orchestrator.UpsertReplaces | src/state/AppStateProvider.tsx:122 | replacing an entry keeps the sessions before and after it in their order and appends the new session |
| Orchestrator.UpsertIdempotent | src/state/AppStateProvider.tsx:122 | upserting the same session twice equals upserting it once |
| Orchestrator.UpsertNewId | src/state/AppStateProvider.tsx:122 | a session whose id is not in the history is appended after it |
| Orchestrator.UpsertProperties | src/state/AppStateProvider.tsx:122 | upserting twice equals upserting once, and a new id is simply appended |
| Orchestrator.Commit | src/state/AppStateProvider.tsx:121-133 | settings are kept, the history is upserted, the streak is updated with the session's date and the badges are derived from the new streak |
| Orchestrator.ApplyPatchProperties | src/state/AppStateProvider.tsx:203-211 | the empty patch changes nothing, applying a patch twice equals once, and the language is the patch's when given |
| Orchestrator.AppStateProvider.constructor | src/state/AppStateProvider.tsx:53-55 | the provider starts from a given state and in-progress session, standing for the loaded ones |
| Orchestrator.AppStateProvider.StartDailySession | src/state/AppStateProvider.tsx:79-94 | today's session is resumed unchanged; otherwise a new one dated today at midnight, with index 0 and the picked tests, becomes active; the state is untouched |
| Orchestrator.AppStateProvider.FinishSession | src/state/AppStateProvider.tsx:96-139 | with no complete test nothing changes; otherwise the finalized session is committed and the active session cleared |
| Orchestrator.AppStateProvider.Advance | src/state/AppStateProvider.tsx:157-167 | past the last test the session is finished and cleared; otherwise it becomes the active session and the state is unchanged |
| Orchestrator.AppStateProvider.CompleteCurrentTest | src/state/AppStateProvider.tsx:141-169 | does nothing without an active session; otherwise completes the current test and advances |
| Orchestrator.AppStateProvider.SkipCurrentTest | src/state/AppStateProvider.tsx:171-197 | does nothing without an active session; otherwise skips the current test with score 0 and advances |
| Orchestrator.AppStateProvider.CancelSession | src/state/AppStateProvider.tsx:199-201 | clears the active session and keeps the state |
| Orchestrator.AppStateProvider.UpdateSettings | src/state/AppStateProvider.tsx:203-211 | the settings become the old ones with the patch applied; nothing else changes; a supported language stays supported |
| Orchestrator.AppStateProvider.SetLanguage | src/state/AppStateProvider.tsx:213-218 | only the language changes |
| Orchestrator.AppStateProvider.ResetAll | src/state/AppStateProvider.tsx:236-242 | the state becomes the default with the previous language, and no session is active |
| Orchestrator.AppStateProvider.ImportFromFile | src/state/AppStateProvider.tsx:225-234 | on a valid file the state becomes the imported one; on failure nothing changes |
| Orchestrator.PersistedItems | src/logic/storage.ts:113-138 | after both saves the main key holds the state's JSON, the language key its language, the active-session key the session's JSON or nothing; every other key is as before |
| Orchestrator.AppStateProvider.Persist | src/state/AppStateProvider.tsx:59-65 | the two save effects leave the store's availability unchanged; without a window the items are unchanged, with one they become exactly the persisted items; with a lawful JSON library, loading afterwards gives back the state (when its language is "en" or "nl") and the active session's JSON |
| Orchestrator.GetFeedback | src/state/AppStateProvider.tsx:244 | positive iff score ≥ baseline + spread and negative iff score < baseline − 0.4·spread for the kind, as `scoreFeedback` classifies |
| Orchestrator.ThreeCompletionsFinish | src/state/AppStateProvider.tsx:141-169 | completing a fresh session three times finishes it on the third completion, and the history entry holds the three tests in order with their total |
| ArithmeticGame.DrawBetween | src/tests/Arithmetic.tsx:28-29 | a scaled draw lands in [min, max] |
| ArithmeticGame.GenerateQuestion | src/tests/Arithmetic.tsx:23-47 | the operator is one of the configured ones; the operands lie in the range except a under `/`; `-` swaps so that a ≥ b and the answer is not negative; `+` and `*` answer a+b and a·b; `/` has b ≥ 1, a = answer·b and the answer in the range |
| ArithmeticGame.GeneratedQuestionIsExact | src/tests/Arithmetic.tsx:23-47 | applying the operator to the operands gives exactly the answer, division included |
| ArithmeticGame.ArithmeticTest.constructor | src/tests/Arithmetic.tsx:52-57 | the game starts not started, with no question and both counters at 0 |
| ArithmeticGame.ArithmeticTest.Begin | src/tests/Arithmetic.tsx:60-65 | the first call draws a question and starts; later calls change nothing |
| NumberText.TrimStart | src/tests/Arithmetic.tsx:75 | drops only leading white space: what was dropped is white space, and the result does not start with white space |
| NumberText.TrimStartSuffix | src/tests/Arithmetic.tsx:75 | what `TrimStart` keeps is the end of the text |
| NumberText.TrimEnd | src/tests/Arithmetic.tsx:75 | drops only trailing white space, in the same terms |
| NumberText.TrimEndPrefix | src/tests/Arithmetic.tsx:75 | what `TrimEnd` keeps is the start of the text |
| NumberText.TrimUnpadded | src/tests/Arithmetic.tsx:75 | text that neither starts nor ends with white space is left alone by `trim` |
| NumberText.FractionValue | src/tests/Arithmetic.tsx:75 | the digits after a point are worth a value in [0, 1) |
| NumberText.DotIndex | src/tests/Arithmetic.tsx:75 | the position of the first point, or the length when there is none |
| NumberText.UnsignedValue | src/tests/Arithmetic.tsx:75 | an unsigned literal is never negative, and a string of digits reads as its decimal value |
| NumberText.NumberOfText | src/tests/Arithmetic.tsx:75-76 | blank text converts to 0, not NaN |
| NumberText.PointSplits | src/tests/Arithmetic.tsx:75 | a literal whose first point has digits before it and only digits after it reads as the digits before the point plus the fraction after it |
| NumberText.MinusSign | src/tests/Arithmetic.tsx:75 | text without surrounding white space that starts with a minus sign reads as the negated literal after the sign, and as NaN when that literal is NaN |
| NumberText.DecimalValue | src/tests/Arithmetic.tsx:75 | a literal with a point reads as its whole part plus its fraction |
| NumberText.NumeralReadsBack | src/tests/Arithmetic.tsx:75 | the numeral of any integer converts back to that integer |
| NumberText.PaddedNumberExample | src/tests/Arithmetic.tsx:75 | " 12 " is 12 |
| NumberText.NegativeExample | src/tests/Arithmetic.tsx:75 | "-7" is −7 |
| NumberText.DecimalExample | src/tests/Arithmetic.tsx:75 | "2.5" is 2.5 |
| NumberText.LettersExample | src/tests/Arithmetic.tsx:75-76 | "abc" is NaN |
| NumberText.LoneSignExample | src/tests/Arithmetic.tsx:75-76 | "-" is NaN |
| ArithmeticGame.ArithmeticTest.HandleSubmit | src/tests/Arithmetic.tsx:72-87 | without a question, or when the text is NaN, nothing changes; otherwise exactly one of correct or mistakes grows by one and a new question is drawn; a blank submission counts as the answer 0 |
| ArithmeticGame.ArithmeticTest.Finish | src/tests/Arithmetic.tsx:67-70 | reports the arithmetic score of the counters and the time left, with meta {correct, mistakes, duration, timeLeft} |
| ReactionGame.Middle | src/tests/Reaction.tsx:19-23 | the middle of an ascending sequence lies between its first and last value |
| ReactionGame.Median | src/tests/Reaction.tsx:16-24 | 0 for no values; otherwise it lies between the least and the greatest value |
| ReactionGame.MedianOfSorted | src/tests/Reaction.tsx:18-23 | the middle sorted value for an odd count, and the rounded mean of the two middle ones for an even count |
| ReactionGame.MedianPermutationInvariant | src/tests/Reaction.tsx:18 | the median does not depend on the order of the values |
| ReactionGame.Window | src/tests/Reaction.tsx:74 | `slice(-k)` is the last min(k, n) values, or all of them when k is 0 |
| ReactionGame.WindowAppend | src/tests/Reaction.tsx:72-75 | after an append the window holds at most k values and the new value is last |
| ReactionGame.Outcome | src/tests/Reaction.tsx:89-93 | the score is the reaction score of the median, and the meta's medianMs is that same median with the windowed values beside it |
| ReactionGame.ReactionTest.constructor | src/tests/Reaction.tsx:28-30 | the game starts idle, at trial 0, with no times |
| ReactionGame.ReactionTest.DelayElapsed | src/tests/Reaction.tsx:40-46 | the timer firing while waiting shows the signal; in any other status nothing changes |
| ReactionGame.ReactionTest.Tap | src/tests/Reaction.tsx:60-99 | idle starts trial 1; an early tap records maxDelay as a penalty; a tap on the signal records the time in the window and either finishes with the outcome of the window on the last trial or moves to the next trial; once finished nothing changes |

## Left out

- Rendering, routing, navigation (`navigate('/play')`), toasts, the theme effect and `updateThemeClass`, the i18next language effect, audio and vibration: these are user-interface and browser calls with no state the engine reads.
- `exportData` and the `FileReader` wrapper of `importData` are browser file I/O; only the validate step of the import is modelled (`Storage.ImportState`).
- The zod library and `JSON.parse`/`JSON.stringify` are not modelled. The schemas are re-stated as validators over a JSON datatype, and the JSON library is an injected parse/stringify pair.
- JSON numbers are integers. Fractional numbers in stored meta (raw reaction durations, memory accuracy) are outside the model, and so are JavaScript's coercions of non-number meta values in the memory-marvel predicate.
- Reaction times are whole milliseconds (`Tap` takes an `int`). `performance.now()` differences are fractional in the browser.
- IsoTime.Parse: accepts only the canonical instant form. Other texts that `new Date` accepts (dates without a time, offsets, expanded years) are treated as invalid dates.
- IsoTime.ParseRejects: its second clause, a date without a time being invalid, is this narrowing and not JavaScript's behaviour.
- `toLowerCase` is modelled on ASCII letters only (`Storage.LowerAscii`).
- React's update scheduling is not modelled: `finishSession` runs inside a `setActiveSession` updater in the source, and here each operation is one atomic method.
- Orchestrator.AppStateProvider.constructor: requires the in-progress session's date to be a valid instant. `loadActiveSession` returns untyped JSON without a schema check, as in the source; the model assumes it has the shape the application saved. A stored session whose date does not parse, which the source would still accept at start-up and let the user cancel or replace, is outside the model.
- The `count` parameter of `pickTests` is not modelled: the only call uses the default, 3.
- The memory and odd-one-out game loops and the countdown timer are timer-driven components. Their scores are covered by `scoring.dfy`.
- Storage.SortSessionsDescending: requires every session date to parse. The stability of the sort among sessions of the same instant is not stated, and neither is the order JavaScript gives invalid dates (NaN comparisons).
- Streaks.UpdateStreak: requires the new date to be a valid instant. For an invalid one the source throws from `toISOString`.
- Orchestrator.AppStateProvider.SetLanguage: requires "en" or "nl", the type of the source's parameter.
- Orchestrator.AppStateProvider.UpdateSettings: requires a patched language to be "en" or "nl", the type of `Partial<AppSettings>`'s `lang`.
- NumberText.NumberOfText: the decimal forms only. Texts to which `Number` gives a value (exponents such as "1e2", the prefixes "0x", "0o" and "0b", "Infinity") are NaN here. So such an answer changes nothing, where the source compares its value with the expected answer and counts it as correct or as a mistake: "1e2" for 10 × 10 and "0x10" for 8 + 8 are correct answers in the source.
- NumberText.UnsignedValue: reads a decimal literal exactly, as a real number, where `Number` rounds it to the nearest double. So "2.00000000000000001" is 2 in the source, a correct answer to 1 + 1, but 2 + 10⁻¹⁷ here, a mistake.
- ArithmeticGame.ArithmeticTest.HandleSubmit: inherits both differences of `NumberText.NumberOfText`: an answer in one of the forms above changes nothing, and a decimal answer is compared exactly, not after rounding to a double.
