# OpenQuiz study core, modelled in Dafny

This project models the parts of the OpenQuiz study application that hold real logic:

- the spaced-repetition scheduler, an SM-2-derived update of a flashcard's ease factor, interval and repetition count after a rating from 1 (Again) to 4 (Easy);
- the due-card filter that picks the cards whose next review has arrived;
- the dashboard's study-streak and seven-day performance helpers;
- the pomodoro timer's state machine, with its time display;
- the document-intake checks (file type, size, truncation);
- the theme table.

Each source file is one module:

| file | module | form |
|---|---|---|
| lib/spaced-repetition/algorithm.ts | `Scheduler` (scheduler.dfy) | `CalculateNextReview` is a method that updates its locals in the source's order. `Schedule` is the same update written as a composition of its steps, and the lemmas are about it. `DueCards` is a recursive filter. |
| app/api/dashboard/route.ts | `Dashboard` (dashboard.dfy) | Both helpers are methods with loops over a `map`, like the source. The three loops of `calculateDailyPerformance` are three small methods (`InitWindow`, `CountReviews`, `ToChart`) that `CalculateDailyPerformance` calls in order. Their contracts are stated outright or through the `Performance` function. |
| lib/hooks/use-pomodoro.ts | `Pomodoro` (pomodoro.dfy) | A `PomodoroTimer` class holds the hook's `state` and `durations`. Its methods apply the hook's `setState` updaters. `FormatTime` is a function with an inverse, `ParseTime`. |
| lib/utils/file-parser.ts | `FileIntake` (file_intake.dfy) | Functions. |
| lib/config/themes.ts | `Themes` (themes.dfy) | A constant table and functions. |

wrappers.dfy holds `Wrappers` (an `Option` type) and rounding.dfy holds `Rounding` (`Math.round` of a quotient).

Conventions used in the model:

- Ease factors are integer hundredths: 250 stands for 2.5, and the floor 1.3 is 130. The ease formula `0.1 - (4 - r) * (0.08 + (4 - r) * 0.02)` is evaluated in hundredths. It gives +10, 0, -14 and -32 for ratings 4, 3, 2 and 1.
- `Math.round(x)` is `floor(x + 1/2)`, computed exactly on integers: `Round(n, d)` is the nearest integer to n/d, with halves going up.
- Calendar days and instants are integer day numbers. "Today" and "now" are parameters.

Points of the code worth knowing:

- Every rating below 3 resets the repetitions to 0.
- `getDueCards` uses `filter`, which keeps the input order; `DueCards` proves that it does.
- The comment in `updateDurations` says the session time is reset only when the timer is not running. The code resets it unconditionally, and so does the model.

## Model

| member | source | states |
|---|---|---|
| Rounding.Round | lib/spaced-repetition/algorithm.ts:32 | `Math.round(n / d)` is non-negative for a non-negative n. |
| Rounding.RoundIsNearest | lib/spaced-repetition/algorithm.ts:32 | The result r of `Math.round(n / d)` satisfies `2dr - d <= 2n < 2dr + d`: it is the nearest integer, with halves going up. |
| Scheduler.EaseDelta | lib/spaced-repetition/algorithm.ts:42 | The ease change of each rating, in hundredths: +10 for 4, 0 for 3, -14 for 2, -32 for 1. |
| Scheduler.Step | lib/spaced-repetition/algorithm.ts:25-56 | The memory update as the composition of the branch, the ease update with its floor, and the Easy/Hard adjustment. The new ease is at least 1.3; repetitions become repetitions+1 for ratings 3 and 4 and 0 otherwise; ratings 1 and 2 end with interval 1. |
| Scheduler.Schedule | lib/spaced-repetition/algorithm.ts:25-67 | The new memory state is `Step`'s, and the card is next due `interval` days after the day of the review. |
| Scheduler.CalculateNextReview | lib/spaced-repetition/algorithm.ts:13-68 | Ratings 3 and 4 give repetitions+1; ratings 1 and 2 give 0. Rating 3 gives interval 1 after 0 repetitions, 6 after 1 repetition, and otherwise round(interval × the ease from before the review). Ratings 1 and 2 always end with interval 1, including after the Hard halving. Rating 4 gives round(1.3 × the correct-branch interval). The new ease is old ease + delta, or 1.3 when that is lower, so it is always at least 1.3. nextReview is today + interval. The method equals the step-wise `Schedule`. |
| Scheduler.IntervalNeverShrinks | lib/spaced-repetition/algorithm.ts:25-56 | With at least two repetitions, ease ≥ 1.3 and rating 3 or 4, the new interval is at least the old interval. |
| Scheduler.GoodIntervalsGrow | lib/spaced-repetition/algorithm.ts:25-56 | From any reachable state, a Good or Easy review gives an interval of at least one day and at least the old interval. |
| Scheduler.ScheduleKeepsReachable | lib/spaced-repetition/algorithm.ts:25-60 | Every review keeps the reachable-state invariant. That invariant is: ease ≥ 1.3; interval ≤ 1 with 0 repetitions; interval = 1 with 1 repetition; interval ≥ 1 with more. Every review also schedules the card at least one day after today. |
| Scheduler.Replay | lib/spaced-repetition/algorithm.ts:42-47 | After any sequence of reviews the ease factor is still at least 1.3. |
| Scheduler.RepetitionsCountTrailingSuccesses | lib/spaced-repetition/algorithm.ts:25-38 | After any sequence of ratings, repetitions is the length of the final run of ratings ≥ 3. When that run is the whole sequence, the starting count is added. |
| Scheduler.ReplayKeepsReachable | lib/spaced-repetition/algorithm.ts:25-60 | Any sequence of reviews from a reachable state, such as a new card (2.5, 0, 0), ends in a reachable state. |
| Scheduler.WorkedExamples | lib/spaced-repetition/algorithm.ts:25-67 | Concrete reviews of a card with ease 2.5: Good → 1, 6, then 15 days; Easy on the third review → 20 days and ease 2.6; Hard after three repetitions → 1 day, 0 repetitions, ease 2.36; Again at the floor keeps ease 1.3. |
| Scheduler.EasyMultiplierExamples | lib/spaced-repetition/algorithm.ts:50-52 | The Easy multiplier takes 1 to 1, 6 to 8 and 15 to 20. |
| Scheduler.DueCards | lib/spaced-repetition/algorithm.ts:70-73 | The result holds exactly the cards with nextReview ≤ now, each as many times as in the input, and is a subsequence of the input in its original order. |
| Scheduler.DueCardsIdempotent | lib/spaced-repetition/algorithm.ts:70-73 | Filtering the due set again with the same `now` returns it unchanged. |
| Scheduler.ReviewedCardNotDueToday | lib/spaced-repetition/algorithm.ts:58-73 | A card just reviewed from a reachable state is not in the due set of the day of the review. |
| Dashboard.CalculateStudyStreak | app/api/dashboard/route.ts:108-142 | No reviews gives 0. Counting ends at today when today has a review, otherwise at yesterday; the gap allowance applies once and only to today. Every day of the counted run has a review. Unless the cap stopped the walk, the day before the run has none. The streak is at most 366. |
| Dashboard.CorrectOn | app/api/dashboard/route.ts:166-169 | A day's count of reviews rated ≥ 3 never exceeds that day's total. |
| Dashboard.Accuracy | app/api/dashboard/route.ts:178 | 0 for a day without reviews. Always in 0..100. |
| Dashboard.AccuracyIsNearest | app/api/dashboard/route.ts:178 | For a day with reviews, the accuracy is the nearest integer to 100·correct/total, halves up. |
| Dashboard.InitWindow | app/api/dashboard/route.ts:150-158 | The first loop creates exactly one empty bucket for each of the seven days up to today, and records the days oldest first. |
| Dashboard.CountReviews | app/api/dashboard/route.ts:160-171 | The second loop leaves the set of buckets unchanged. Each bucket then holds its day's number of reviews and the number of those rated ≥ 3. Reviews of other days are skipped. |
| Dashboard.ToChart | app/api/dashboard/route.ts:173-179 | The third loop reads the buckets back in insertion order and gives the `Performance` entries. |
| Dashboard.CalculateDailyPerformance | app/api/dashboard/route.ts:144-180 | Exactly 7 entries, oldest first, for the days from 6 days ago through today. Each entry's total and correct count are that day's reviews and those rated ≥ 3, and correct ≤ total. Accuracy is at most 100. The method equals `Performance`. |
| Dashboard.Performance | app/api/dashboard/route.ts:150-179 | Seven entries; entry k holds the statistics of day today-6+k. |
| Dashboard.PerformanceEntries | app/api/dashboard/route.ts:150-179 | Entry k of `Performance` is for day today-6+k. It has that day's review count and correct count, correct ≤ total, and an accuracy of at most 100. |
| Dashboard.PerformanceAddReview | app/api/dashboard/route.ts:161-171 | One more review adds exactly 1 to its own day's total, adds 1 to that day's correct count when rated ≥ 3, and changes no other day. |
| Dashboard.PerformanceIgnoresOldReview | app/api/dashboard/route.ts:161-165 | A review whose day is outside the seven-day window changes nothing. |
| Pomodoro.PomodoroTimer.constructor | lib/hooks/use-pomodoro.ts:30-68 | The timer starts as the default state (a stopped work session of 25 minutes, count 0). The default durations are 25, 5 and 15 minutes. |
| Pomodoro.PomodoroTimer.Tick | lib/hooks/use-pomodoro.ts:136-155 | With more than 1 second left, the tick takes off exactly 1 second and changes nothing else. Otherwise it sets the time to 0, stops the timer and reports completion; the session type and count stay the same. |
| Pomodoro.PomodoroTimer.Start | lib/hooks/use-pomodoro.ts:170-172 | Only isRunning changes; it becomes true. |
| Pomodoro.PomodoroTimer.Pause | lib/hooks/use-pomodoro.ts:174-176 | Only isRunning changes; it becomes false. |
| Pomodoro.PomodoroTimer.Reset | lib/hooks/use-pomodoro.ts:178-184 | The time becomes the duration of the current session type and the timer stops. The type and count stay the same. |
| Pomodoro.PomodoroTimer.Skip | lib/hooks/use-pomodoro.ts:186-207 | From work: the count goes up by one, and the next session is a long break exactly when the new count is divisible by 4, a short break otherwise. From a break: work, with the count unchanged. Afterwards the timer is stopped with the full time of the new session. |
| Pomodoro.PomodoroTimer.UpdateDurations | lib/hooks/use-pomodoro.ts:217-224 | The durations are replaced. The remaining time becomes the new duration of the current type, even while running. Nothing else changes. |
| Pomodoro.TickUpdate | lib/hooks/use-pomodoro.ts:138-155 | With more than 1 second left, one second comes off and the running flag is kept. Otherwise the time becomes 0 and the timer stops. The session type and count never change. |
| Pomodoro.SkipUpdate | lib/hooks/use-pomodoro.ts:186-207 | Work and break alternate. Leaving work adds one to the count; the next session is a long break exactly when it follows work and the new count is a multiple of 4. The new session is stopped with its full duration. |
| Pomodoro.TicksCountDown | lib/hooks/use-pomodoro.ts:150-153 | Fewer ticks than the seconds left take exactly that many seconds off and keep the timer running. |
| Pomodoro.TicksComplete | lib/hooks/use-pomodoro.ts:138-153 | A session with t ≥ 1 seconds left stops at 0 after exactly t ticks, on the same session type and count (no automatic advance). |
| Pomodoro.SkipsAlternate | lib/hooks/use-pomodoro.ts:186-207 | Repeated skips from work alternate work and breaks. After n skips the count has grown by ⌈n/2⌉, and each break is long exactly when the count is a multiple of 4. |
| Pomodoro.FirstLongBreakAfterFourWorkSessions | lib/hooks/use-pomodoro.ts:186-207 | From the default state, the seventh skip gives the first long break (15 minutes, count 4). None of the first six does. |
| Pomodoro.NatToString | lib/hooks/use-pomodoro.ts:233 | `toString()` of a non-negative integer: at least one decimal digit, one digit below 10, two digits below 100, and a leading '0' only for 0 itself. Its digits read back as n (`NatToStringValue`). |
| Pomodoro.PadStart2 | lib/hooks/use-pomodoro.ts:233 | `padStart(2, "0")`: a text of two or more characters is unchanged; a shorter one gets 2 - length zeros in front. |
| Pomodoro.FormatTime | lib/hooks/use-pomodoro.ts:230-234 | The text always ends in ":ss", with the colon three characters from the end. Below 6000 seconds it has exactly 5 characters. From 10 minutes on it has no leading zero, so 7200 seconds shows as "120:00". |
| Pomodoro.ParseTimeOf | lib/hooks/use-pomodoro.ts:230-234 | A text of at least two minute digits, a colon and two second digits below 60 reads back as minutes·60 + seconds. |
| Pomodoro.FormatTimeRoundTrip | lib/hooks/use-pomodoro.ts:230-234 | Reading the displayed text back as minutes·60 + seconds gives the original number of seconds. |
| FileIntake.ToLower | lib/utils/file-parser.ts:7 | Lower-casing keeps the length and maps every ASCII capital A-Z to its small letter, leaving every other character as it is. |
| FileIntake.ParseDecision | lib/utils/file-parser.ts:5-45 | A file is read exactly when it is a text file by MIME type or by lower-cased name. A refusal carries the PDF message, the Word message or the unsupported-type message naming the MIME type. |
| FileIntake.DecisionClassifies | lib/utils/file-parser.ts:5-45 | A file is read exactly when its MIME type is text/plain or text/markdown, or its lower-cased name ends in .txt, .md or .markdown. Any other file is refused: with the PDF message by PDF MIME type or .pdf name, then the Word message by DOCX MIME type or .docx name, otherwise with the unsupported-type message naming the MIME type. |
| FileIntake.TextMimeWins | lib/utils/file-parser.ts:10-35 | A text/plain or text/markdown MIME type is read whatever the name, including .pdf and .docx names. |
| FileIntake.ToLowerIdempotent | lib/utils/file-parser.ts:7 | Lower-casing twice is the same as lower-casing once. |
| FileIntake.DecisionIgnoresNameCase | lib/utils/file-parser.ts:7-44 | The decision is the same for a name and its lower-cased form. |
| FileIntake.UpperCaseExtensionAccepted | lib/utils/file-parser.ts:7-11 | A name ending in upper-case ".TXT" is read whatever its MIME type. |
| FileIntake.ValidateDocumentSize | lib/utils/file-parser.ts:47-50 | A size is accepted exactly when it is at most maxSizeMB × 1048576 bytes. |
| FileIntake.SizeLimit | lib/utils/file-parser.ts:47-50 | The default limit accepts exactly the sizes ≤ 10485760 bytes (10 MiB). Validity is kept by a smaller size or a larger limit. |
| FileIntake.TruncateText | lib/utils/file-parser.ts:52-55 | The result is a prefix of the text of length at most maxChars. It is the whole text when it fits, otherwise exactly maxChars characters. The default limit is 20000. |
| FileIntake.TruncateLongestPrefix | lib/utils/file-parser.ts:52-55 | Every prefix that fits is a prefix of the result, so the result is the longest fitting prefix. Truncating twice is the same as truncating once. |
| Themes.IsValidTheme | lib/config/themes.ts:45-47 | A name is valid exactly when some entry of the theme table has that name. |
| Themes.Find | lib/config/themes.ts:49-51 | `find`: nothing when no entry has the name, otherwise the first entry with that name. |
| Themes.GetTheme | lib/config/themes.ts:49-51 | The entry found is in the table and has the requested name. Nothing is found exactly when no table entry has that name. |
| Themes.TableNamesAreValidNames | lib/config/themes.ts:10-47 | The table's names are the five valid names, in order, with no two alike. |
| Themes.GetThemeDefinedIffValid | lib/config/themes.ts:45-51 | `getTheme(n)` is defined exactly when `isValidTheme(n)`. |
| Themes.DefaultThemeIsValid | lib/config/themes.ts:43-51 | The default theme "light" is valid, and its entry is the first in the table. |

## Left out

- CalculateNextReview: ease factors are exact integer hundredths, not IEEE-754 doubles. Where the double product `interval * easeFactor` lands within rounding error of an exact .5, `Math.round` in the source can differ by one day. The final rounding of the ease to two decimals is the identity in hundredths.
- CalculateNextReview: requires an input ease of at least 1.3 and a rating in {1, 2, 3, 4}. Stored cards keep that ease by the floor. The rating is only checked as a number by the request schema and then cast, so the rating domain is the caller's obligation.
- CalculateNextReview: `nextReview` is a day number. The source keeps the time of day of the review and adds calendar days with `setDate`, so the time of day and daylight-saving shifts are not modelled. Month and year rollover are captured exactly, since adding to a day number is what `setDate` does to the calendar date.
- DueCards: compares day numbers. The source compares instants to the millisecond; the current time is a parameter instead of `new Date()`.
- CalculateStudyStreak: the source groups by the local calendar day (`toDateString`), while CalculateDailyPerformance buckets by the UTC day (`toISOString`). Both use the same day number here, so time zones are not modelled. The source reads the clock again on every gap check; here "today" is fixed.
- CalculateDailyPerformance: always returns seven entries. The source steps back with local `setDate` but keys the buckets by the UTC date, so across a daylight-saving change two steps can land on the same UTC date. In Europe/London at 00:30 on 31 March 2025, i = 1 and i = 0 both give "2025-03-30", and the source returns six entries.
- CountReviews: the source increments the bucket object held by the map in place. The model writes the updated bucket back into the map, which has the same effect because no other reference to the bucket exists.
- CalculateDailyPerformance: each entry carries its day number instead of the "Mon D" label from `toLocaleDateString`. Accuracy is computed on exact rationals, so float rounding at exact halves is not modelled.
- The dashboard `GET` handler (the database queries, the last-100-reviews limit and the seven-days-ago pre-filter) is not modelled.
- PomodoroTimer.Tick: no check of isRunning, since the source's updater has none. The setInterval that fires it only while running is not modelled. The completion callback is reduced to the `completed` result.
- PomodoroTimer: loading from and saving to localStorage is not modelled, so a saved state or saved durations of arbitrary shape cannot appear. Durations and times are non-negative integers of seconds. `updatePosition`, `updateSize` and `setOnComplete` are widget and callback glue and are left out.
- FormatTime: takes a non-negative integer, which is what the timer passes. For negative or fractional seconds, `Math.floor` and `%` would behave differently.
- ParseDecision: reading the file (`file.text()`) is not modelled; an accepted file is `ReadText`. 
- ToLower: lowers only ASCII A-Z. JavaScript's `toLowerCase` lowers every Unicode capital: 'É' becomes 'é' and the Kelvin sign U+212A becomes 'k'. Mappings that change the length are not modelled either. So a name such as "n.MAR\u212ADOWN" with a non-text MIME type is read by the source and refused by the model.
- TruncateText: lengths count Unicode code points, while the source's `length` and `substring` count UTF-16 code units. A character outside the Basic Multilingual Plane (an emoji, say) counts as one here and as two in the source. Text containing such characters is therefore cut later than in the source, and never between the two halves of a surrogate pair. For example, 19999 'a's followed by U+1F600 are kept whole here, while the source keeps the 'a's and a lone high surrogate.
- ValidateDocumentSize and TruncateText: take non-negative integer limits; the callers use only the defaults. Fractional MiB limits and the negative-argument behaviour of `substring` are not modelled.
- Themes: the field `label` is called `displayLabel`, because `label` is a reserved word in Dafny.
- UI components, API route handlers, AI generation, request validation schemas and persistence are outside this model.
