# VibeTracker mood history, modelled in Dafny

VibeTracker is a browser page for logging moods. The user picks a cell on a
15 x 15 energy/mood grid, chooses some tags, types a note and logs the entry.
The page keeps at most 200 entries, newest first. From that history it
derives:

- the mean energy and mood of today;
- the mean mood overall;
- a trend over recent entries;
- the logging streak in days;
- the number of "positive" days in the last week;
- up to three insights.

This project models the logic of the `VibeTracker` class in `script.js`. It
leaves out the page itself.

Modules, in dependency order:

- `MoodData` (`data.dfy`): the entry record and the grid selection. Also the
  field totals and exact means, `Math.round` stated over the reals, the
  first-occurrence key order of a JavaScript object, and `String.prototype.trim`.
- `MoodGrid` (`grid.dfy`): the value each grid cell stands for, and the five
  bands behind `getMoodDescription`.
- `MoodAnalytics` (`analytics.dfy`): the entries of one calendar day,
  `calculateTrend`, and the rounded means of `updateDashboard`.
- `MoodStreak` (`streak.dfy`): `updateStreak`. Its counting loop with `break`
  is proved against the defining property of a streak.
- `MoodGoals` (`goals.dfy`): `getPositiveDays`. The loop that fills the
  per-day dictionary and the loop that counts its values are each proved
  against a fold function. Then the count is proved equal to the number of
  distinct positive days.
- `MoodInsights` (`insights.dfy`): `generateInsights`. This covers the
  most-common-tag reduce with its tie-break and the rule-by-rule meaning of
  the returned list.
- `MoodTracker` (`tracker.dfy`): the class `VibeTracker`. It holds the
  fields `moodHistory`, `currentSelection`, `selectedTags` and `streakCount`,
  updated in place by `LogMood`, `ShowModal`, `ToggleTag`, `SelectCell` and
  `UpdateStreak`.

Time is abstracted. Each entry carries an integer `instant`, standing for its
timestamp, and an integer `day`, its local calendar day. Operations that read
the clock take the current instant and day as parameters. `getPositiveDays`
takes its cutoff instant.

Divisions such as `sum / count` are stated over exact reals (`Mean`). The
methods compare by integer cross-multiplication, as in `QuotientCompare` and
`MeanGapCompare`. `Math.round(s / n)` is characterised by `IsRoundOf`: the
result `r` satisfies `r - 1/2 <= s/n < r + 1/2`.

Some behaviour follows the code where a tidier reading is possible:

- Ties for the most common tag go to the tied tag whose first occurrence
  comes last. The reduce `tagCounts[a] > tagCounts[b] ? a : b` keeps `b` when
  the counts are equal.
- An empty tag is never reported, because `if (mostCommonTag)` treats `""` as
  false.
- A missing storage key, or stored JSON that parses to a falsy value such
  as `null` or `0`, gives an empty history (`JSON.parse(...) || []`); a
  malformed value throws. A stored history longer than 200 entries is kept
  as it is until the next log.
- Averages over an empty history are NaN, so no energy or mood insight is
  produced.

## Model

| member | source | states |
|---|---|---|
| MoodData.Total | script.js:279-280 | the `reduce((sum, entry) => sum + entry.<field>, 0)` of a field, defined from the oldest entry; `TotalBounds` bounds it |
| MoodData.Mean | script.js:279-280 | the exact quotient of `Total` by the number of entries (the division at script.js:279-280, 304, 317-318, 437 and 451); `RoundHalfUp`, `QuotientCompare` and `MeanGapCompare` connect it to the integer code |
| MoodData.TotalBounds | script.js:279-280 | the sum of a field over valid entries lies between 0 and 100 times their number |
| MoodData.RoundHalfUp | script.js:279-280 | `(2s + n) / (2n)` is `Math.round(s / n)`: within one half of the exact quotient, with halves rounded up |
| MoodData.QuotientInRange | script.js:279-280 | a mean of values in 0..100 lies in 0..100 |
| MoodData.RoundInRange | script.js:279-280 | rounding a value in 0..100 gives an integer in 0..100 |
| MoodData.QuotientCompare | script.js:408-410 | `s / n` compared with an integer `k` agrees with `s` compared with `k * n` (`<`, `>`, `>=`) |
| MoodData.RoundMonotone | script.js:103-104 | `Math.round` does not reverse the order of its arguments |
| MoodData.Distinct | script.js:483-486 | the keys of the counting dictionary, in first-insertion order, are no more than the tags |
| MoodData.DistinctMembers | script.js:483-486 | the dictionary has a key for exactly the tags that occur |
| MoodData.DistinctNoDuplicates | script.js:483-486 | each key appears once |
| MoodData.DistinctSnoc | script.js:484-486 | counting one more tag adds it as the last key exactly when it is new |
| MoodData.Count | script.js:485 | a tag's count is positive exactly when the tag occurs, and is at most the number of tags |
| MoodData.TrimStart | script.js:234 | the result is a suffix of the input and starts with no whitespace |
| MoodData.TrimEnd | script.js:234 | the result is a prefix of the input and ends with no whitespace |
| MoodData.Trim | script.js:234 | the notes are a piece of the input with only whitespace cut from both ends, and start and end with no whitespace |
| MoodData.TrimIdempotent | script.js:234 | trimming twice is trimming once |
| MoodGrid.EnergyAt | script.js:103 | the energy of column `col` is an integer in 0..100 and is `Math.round(col / 14 * 100)` |
| MoodGrid.MoodAt | script.js:104 | the mood of row `row` is an integer in 0..100 and is `Math.round((14 - row) / 14 * 100)` |
| MoodGrid.CellValue | script.js:103-104 | k/14 of the way from 0 to 100, rounded, stays in 0..100 |
| MoodGrid.GridCorners | script.js:103-104 | energy is 0 at column 0 and 100 at column 14; mood is 100 at row 0 and 0 at row 14 |
| MoodGrid.EnergyMonotone | script.js:103 | energy does not decrease from left to right |
| MoodGrid.MoodAntitone | script.js:104 | mood does not increase from top to bottom |
| MoodGrid.CellValueIsStrictlyNearest | script.js:103-104 | no cell value falls on a half, so the rounding convention never decides a cell |
| MoodGrid.Level | script.js:177-187 | the band index 0..4 of a value, whose bounds are 20, 40, 60 and 80 |
| MoodGrid.LevelUnique | script.js:177-187 | every value lies in exactly one band |
| MoodGrid.LevelMonotone | script.js:177-187 | a larger value never lies in a lower band |
| MoodGrid.EnergyLabel | script.js:177-181 | the energy words for bands 4 down to 0; `DescriptionDeterminesBands` shows they are told apart |
| MoodGrid.MoodLabel | script.js:183-187 | the mood words for bands 4 down to 0; `MoodLabelDecodes` shows they are distinct |
| MoodGrid.MoodDescription | script.js:174-190 | the text `<energy word> Energy, <mood word> Mood` for the two bands; its meaning is stated by `DescriptionDeterminesBands` |
| MoodGrid.EnergyLabelLeads | script.js:177-189 | a text beginning with band `k`'s energy word and " Energy, " is read back as band `k` |
| MoodGrid.MoodLabelDecodes | script.js:183-189 | band `k`'s mood word followed by " Mood" is read back as band `k` |
| MoodGrid.DescriptionDeterminesBands | script.js:174-190 | the description text gives back both bands: the energy band from its front, the mood band from what follows " Energy, " |
| MoodGrid.DescriptionInjective | script.js:174-190 | two equal descriptions have equal energy bands and equal mood bands |
| MoodAnalytics.EntriesOn | script.js:273-276 | the entries of a day: exactly the history's entries with that day, and none exactly when nothing was logged that day (order and repeats: `EntriesOnAppend`) |
| MoodAnalytics.EntriesOnAppend | script.js:273-276 | the filter keeps order and repeats: filtering a concatenation concatenates the filtered parts |
| MoodAnalytics.MeanGapCompare | script.js:316-324 | the difference of two means compared with ±5 agrees with the integer cross-multiplied comparison |
| MoodAnalytics.CalculateTrend | script.js:309-325 | "Not enough data" iff fewer than 2 entries; "Getting started" iff 2 or 3; otherwise up iff the mean mood of the newest 3 exceeds that of the rest by more than 5, down iff it is more than 5 below |
| MoodAnalytics.TrendStable | script.js:322-324 | with more than 3 entries the trend is stable iff the two means are within 5 of each other |
| MoodAnalytics.RoundedMean | script.js:279-280 | the rounded mean of a non-empty list is `Math.round` of the exact mean, in 0..100 for valid entries |
| MoodAnalytics.TodaySummary | script.js:272-298 | today's card exists iff something was logged today; it shows the entry count, the rounded means of today's entries and their trend |
| MoodAnalytics.OverallMood | script.js:302-305 | the overall mean mood exists iff the history is non-empty, and is the rounded exact mean |
| MoodAnalytics.TrendUpExample | script.js:309-325 | moods 80, 80, 80, 50, 50, 50 (newest first) trend up |
| MoodAnalytics.RoundsHalfUpExample | script.js:280 | moods 70 and 71 average to 71 |
| MoodStreak.IsStreak | script.js:327-346 | `k` days ending today all have entries, and the day before them has none unless all 365 are covered; `StreakUnique` shows at most one `k` fits |
| MoodStreak.ComputeStreak | script.js:327-346 | the loop returns the streak: every one of the `k` days up to today has an entry, and the day before them has none unless all 365 are covered |
| MoodStreak.StreakUnique | script.js:327-346 | at most one value is a streak |
| MoodStreak.NoStreakWithoutToday | script.js:331-343 | nothing logged today means a streak of 0 |
| MoodStreak.DaySet | script.js:338-340 | the set of logged days, no larger than the history |
| MoodStreak.StreakAtMostHistory | script.js:330-346 | a streak never exceeds the number of entries, so with 200 entries at most the 365-day bound is never reached |
| MoodStreak.TwoDayStreak | script.js:327-346 | entries today and yesterday but not the day before give a streak of 2 |
| MoodGoals.EntriesSince | script.js:394-396 | the filtered entries are exactly those at or after the cutoff (order and repeats: `EntriesSinceAppend`) |
| MoodGoals.EntriesSinceAppend | script.js:394-396 | the filter keeps order and repeats: filtering a concatenation concatenates the filtered parts |
| MoodGoals.DaysOf | script.js:400 | the calendar day of each entry, in order |
| MoodGoals.DayMood | script.js:400-405 | a day without entries has a mood total of 0 |
| MoodGoals.DayCount | script.js:400-405 | a day's entry count is positive exactly when the day occurs |
| MoodGoals.DayTotalsAreGroupTotals | script.js:398-405 | a day's running totals are the mood sum and size of the day's group of entries |
| MoodGoals.PositiveDayMeaning | script.js:408-410 | a day is positive iff it has entries whose exact mean mood is at least 60 |
| MoodGoals.DailyTotalsMeaning | script.js:398-405 | the dictionary has one key per calendar day, holding that day's mood total and count |
| MoodGoals.PositiveDays | script.js:390-411 | the result is the number of distinct positive days since the cutoff, and is at most the number of distinct days and at most the number of filtered entries |
| MoodGoals.GroupByDay | script.js:398-405 | the `forEach` leaves the dictionary of running totals, and its keys are the days in order of each day's first entry, without repeats |
| MoodGoals.DailyKeys | script.js:400-403 | the dictionary's keys in insertion order: a day becomes the last key when it is not yet a key |
| MoodGoals.DailyKeysInOrder | script.js:398-408 | the keys that `Object.values` visits are the days of the entries, first occurrences only, in order |
| MoodGoals.CountOverKeys | script.js:407-410 | counting along those keys gives the number of distinct positive days, which is at most the number of distinct days and of entries |
| MoodGoals.DailyTotals | script.js:398-405 | the dictionary after the `forEach`, defined by folding `AddToDay`; `DailyTotalsMeaning` states its keys and values |
| MoodGoals.AddToDay | script.js:401-404 | one `forEach` step: the day's value is created as `{0, 0}` if absent, then its mood total grows by the entry's mood and its count by 1 |
| MoodGoals.CountPositiveDays | script.js:408-410 | the `filter(...).length` counts the positive days among the keys |
| MoodGoals.PositiveByTotal | script.js:408 | the filter's test `day.mood / day.count >= 60` holds exactly when the day is positive, tested on integers |
| MoodGoals.CountPositiveByTotal | script.js:408-410 | one more key adds one to the count exactly when its total passes the filter's test |
| MoodGoals.CountPositiveIsCardinality | script.js:408-410 | counting along keys without repeats gives the size of the set of positive days |
| MoodGoals.DaysOfCardinality | script.js:398-405 | there are no more distinct days than entries |
| MoodInsights.TrendText | script.js:310-324 | the string `calculateTrend` returns for each outcome, emoji spelled as in the file; `TextMentionsUp` and `TextMentionsDown` state what `includes` finds in it |
| MoodInsights.Contains | script.js:468 | `includes`: the word occurs at some position; `OccursAt` and `AbsentCharacter` characterise it |
| MoodInsights.TextMentionsUp | script.js:467-468 | the trend text contains "up" iff the trend is up |
| MoodInsights.TextMentionsDown | script.js:467-473 | the trend text contains "down" iff the trend is down |
| MoodInsights.AbsentCharacter | script.js:468 | a word with a character missing from a text does not occur in it |
| MoodInsights.OccursAt | script.js:468 | a word found at some position is contained in the text |
| MoodInsights.AllTags | script.js:482 | `flatMap(entry => entry.tags \|\| [])`: each entry's tags in history order; `AllTagsMembers` states its contents |
| MoodInsights.TagCounts | script.js:483-486 | the dictionary after the counting `forEach`; `TagCountsMeaning` states its keys and values |
| MoodInsights.Keep | script.js:488-489 | the reduce callback: keep the accumulator only when it is a key with a strictly larger count |
| MoodInsights.MostCommon | script.js:488-490 | the reduce from `null` over the keys in insertion order; `MostCommonIsMaximal` states what it picks |
| MoodInsights.AllTagsMembers | script.js:482 | the flattened list holds the tags of every entry and nothing else |
| MoodInsights.ReduceKeys | script.js:488-490 | the reduce gives nothing exactly when there are no keys, and otherwise one of the keys |
| MoodInsights.ReduceKeysIsLastMaximum | script.js:488-490 | over keys without repeats, the reduce gives a key of maximal count, and no later key has the same count |
| MoodInsights.ReduceKeysIsMaximum | script.js:488-490 | no key has a larger count than the key the reduce returns |
| MoodInsights.ReduceKeysTiesGoLater | script.js:488-490 | over keys without repeats, every key after the returned one has a smaller count, because `>` keeps the accumulator only on a strict win |
| MoodInsights.MostCommonIsMaximal | script.js:482-490 | the most common tag exists iff there are tags; it is a tag of maximal count, and of the tied tags it is the one first seen last |
| MoodInsights.TagCountsMeaning | script.js:483-486 | `tagCounts` has a key for exactly the tags that occur, holding each tag's number of occurrences |
| MoodInsights.MostCommonTag | script.js:482-490 | the flatten, count and reduce steps compute the most common tag |
| MoodInsights.MostCommonOf | script.js:483-490 | the counting loop and the reduce loop compute the most common tag of the flattened list |
| MoodInsights.CountTags | script.js:483-486 | the `forEach` leaves each tag's number of occurrences in `tagCounts`, with the keys in order of first insertion |
| MoodInsights.ReduceOverKeys | script.js:488-490 | the reduce from `null` over the keys, comparing the dictionary's counts, is the reduce over the tags' counts |
| MoodInsights.EnergyInsights | script.js:437-448 | the energy rule on the exact mean: low below 40, high above 70, nothing for an empty history; `EnergyRule` states it |
| MoodInsights.MoodInsights | script.js:451-462 | the mood rule, likewise; `MoodRule` states it |
| MoodInsights.PatternInsights | script.js:465-479 | the trend rule on the newest seven entries, when there are at least three; `PatternRule` and `PatternByText` state it |
| MoodInsights.TagInsights | script.js:493-497 | the tag rule: an insight for a non-empty most common tag; `TagRule` states it |
| MoodInsights.Assemble | script.js:436-499 | the four rules' insights in push order, cut to 3; `AssembleKeeps` states what the cut keeps |
| MoodInsights.Insights | script.js:433-500 | the reference list that `GenerateInsights` is proved equal to; `InsightsBoundedAndOrdered` and the rule lemmas state its properties |
| MoodInsights.GenerateInsights | script.js:433-500 | the pushed list, cut to 3, is the rule-by-rule insight list for the history and its most common tag |
| MoodInsights.ApplyRules | script.js:436-499 | each rule pushes its insight in order, and the list is cut to 3 |
| MoodInsights.MeanRules | script.js:436-462 | the energy rule's insight (if any), then the mood rule's, each decided on the exact mean of the history |
| MoodInsights.RuleOnTotal | script.js:437-438 | comparing the mean with 40 or 70 is comparing the total with 40 or 70 times the number of entries |
| MoodInsights.TrendRule | script.js:464-479 | the list gains the trend insight of the newest seven entries, if any |
| MoodInsights.PatternByText | script.js:465-478 | searching the trend text for "up", then "down", gives exactly the insight of the trend kind, and nothing under three entries |
| MoodInsights.InsightsBoundedAndOrdered | script.js:433-499 | at most 3 insights, strictly in the order energy, mood, trend, tag |
| MoodInsights.AssembleKeeps | script.js:499 | the cut to 3 keeps every energy, mood and trend insight, and keeps the tag insight only when fewer than 3 come before it |
| MoodInsights.KeptInsights | script.js:436-499 | the same, for the lists the rules produce |
| MoodInsights.EnergyRule | script.js:437-448 | low energy iff the mean energy is below 40; high energy iff it is above 70; so never both, and neither for means in 40..70 |
| MoodInsights.MoodRule | script.js:451-462 | low mood iff the mean mood is below 40; high mood iff it is above 70 |
| MoodInsights.PatternRule | script.js:465-479 | rising or declining iff at least 3 entries and the trend of the newest 7 is up or down; this needs at least 4 entries |
| MoodInsights.TagRule | script.js:482-497 | the tag insight appears iff the most common tag is non-empty and fewer than 3 insights precede it |
| MoodInsights.MostCommonTagOfHistory | script.js:482-497 | there is no most common tag exactly when no entry has tags; otherwise it is a tag of some entry, with no other tag more frequent |
| MoodInsights.LowHistoryInsights | script.js:433-499 | a short history with low energy, low mood and a most common tag gets exactly those three insights, in that order |
| MoodTracker.Prepend | script.js:238-243 | the new entry is at index 0, followed by the old history's first `min(old length, 199)` entries, so at most 200 entries |
| MoodTracker.LogAllKeepsNewest | script.js:238-243 | after any number of logs the history is the newest entries, newest first, followed by the older history, cut to 200 |
| MoodTracker.StreakOfLoggedDay | script.js:327-346 | a day with an entry has a streak of at least 1 |
| MoodTracker.Without | script.js:212 | deleting a tag removes exactly that tag and keeps the others unique |
| MoodTracker.Toggled | script.js:210-219 | `selectedTags` after `toggleTag` in insertion order: delete when present, add at the end otherwise; `ToggledMembers` states its members |
| MoodTracker.ToggledMembers | script.js:210-219 | toggling flips the membership of that tag alone and keeps the tags unique |
| MoodTracker.ToggleTwice | script.js:210-219 | toggling a tag twice gives back the same set of tags |
| MoodTracker.VibeTracker.constructor | script.js:2-13 | loads the stored history, or an empty one when nothing is stored; no selection, no tags; the streak of today |
| MoodTracker.VibeTracker.SelectCell | script.js:155-172 | the current selection becomes the energy and mood of the cell; nothing else changes |
| MoodTracker.VibeTracker.ShowModal | script.js:192-203 | without a selection nothing changes; otherwise the chosen tags are cleared |
| MoodTracker.VibeTracker.ToggleTag | script.js:210-219 | the chosen tags are toggled at `tag`; the rest of the state is unchanged |
| MoodTracker.PrependKeeps | script.js:238-243 | the new entry's day counts as logged, and a history of in-range entries stays in range |
| MoodTracker.VibeTracker.Unshift | script.js:238-243 | the history becomes `Prepend` of the entry; nothing else changes |
| MoodTracker.VibeTracker.LogMood | script.js:227-263 | without a selection nothing changes; otherwise the history becomes `Prepend` of the trimmed entry (in front, cut to 200, old entries in order), valid entries stay valid, the selection is cleared, the tags stay, and the streak is recomputed and is at least 1 |
| MoodTracker.VibeTracker.UpdateStreak | script.js:327-349 | `streakCount` becomes the streak of `today`; nothing else changes |

## Left out

- sw.js is not part of this model. It is the service worker, which handles caching, fetch fallback and notifications.
- DOM work is not modelled: building the grid, event wiring, HTML strings in `updateGoals` and `updateInsights`, toasts, timers, the PWA install prompt and `handleURLParams`.
- `handleCellLeave` only resets display text, so it is left out.
- Persistence is treated as an opaque save of the whole history. `localStorage.setItem` after a log is not modelled. The constructor takes what is stored: `None` for a missing key.
- MoodTracker.VibeTracker.constructor: stored JSON that parses to a falsy non-array value (`null`, `false`, `0`, `""`) also gives `[]` in the source; the `Option<seq<Entry>>` parameter cannot carry such a value, so the model shows that case only as `None`. A truthy non-array value is not modelled either.
- A malformed stored value makes `JSON.parse` throw at script.js:3. That path is not modelled.
- Stored entries without a `tags` array are modelled as having no tags, which is what `entry.tags || []` gives.
- `Date`, `toDateString` and time zones are abstracted to the integer `instant` and `day` of each entry. The clock reads become parameters: the instant and day of `LogMood`, the `today` of `UpdateStreak`, and the cutoff of `PositiveDays`.
- How a cutoff of "now minus 7 days" maps to calendar days is therefore not modelled.
- Floating point is modelled as exact reals. The 40, 70 and 60 threshold tests are unaffected: an exact mean `S/n` that differs from an integer `k` differs by at least `1/n`, far more than the rounding error. The ±5 trend test is affected. Newest moods 0, 21, 29 (grid values) against older moods 0, 14, 21 differ by exactly 5, so the model says Stable; in IEEE doubles `50/3 - 35/3` is `5.000000000000002`, so the page says "Trending up" and the rising insight appears. Only `calculateTrend` and what reads it (today's card, the pattern insight) can differ this way.
- The progress percentage of `updateGoals` (script.js:370) is display arithmetic and is left out.
- The notes text field is DOM state. `LogMood` takes its text as a parameter, so the clearing of the field in `showModal` is not modelled.
- JavaScript object key order puts integer-like keys first. The model assumes tag names and day strings are never integer-like, so keys keep insertion order.
- Tags are assumed never to be the literal `"null"`, nor a name inherited from `Object.prototype` such as `"constructor"`. The reduce's initial `null` looks up the key `"null"`, and `(tagCounts[tag] || 0)` would read an inherited member.
- MoodInsights.GenerateInsights: the insights are modelled by kind, without their icon and message text. The tag insight carries its tag.
- MoodInsights.GenerateInsights: the most common tag is computed before the other rules. The source computes it last. Nothing is changed in between, so the result is the same.
