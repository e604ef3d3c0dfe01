# LightTrack pages: a Dafny model

LightTrack is a mobile-first health tracker written as React pages over a hosted
auth and table service. Three pages hold real in-memory logic, and this project
models them:

- **Fitness log** (`fitness.dfy`, module `Fitness`). The page state is a class `FitnessPage`
  with the exercise list, the form draft, and the stopwatch's running flag and seconds.
  "Add" is guarded and appends, then resets the draft. "Delete" filters by id. Play/pause
  and stop drive the stopwatch. The `mm:ss` display is a pure function over JavaScript's
  integer `toString` and `padStart`.
- **Daily summary** (`home.dfy`, module `Home`). Two `reduce` sums give today's intake
  and burn; a missing value counts as zero and an absent result set gives zero. The
  window is the start of the local day. The two store queries are modelled as filters
  over a snapshot of each table (`user_id` equal, `recorded_at` at or after midnight).
  `HomePage.FetchSummary` sets the summary once.
- **Weight** (`weight.dfy`, module `Weight`). The class `WeightPage` holds the current
  weight, the input text and the chart history. "Add weight" is guarded and keeps the
  invariant that the current weight is the last history point. The goal progress, its
  display clamp and the signed remaining-to-goal figure are pure functions.

`wrappers.dfy` holds the `Option` type. `None` stands for JavaScript's `null`/`undefined`,
or for the `NaN` a number parse returns.

Modelling choices:
- `parseInt` and `parseFloat` are parameters of type `string -> Option<...>`.
  The model depends on nothing about them beyond that.
- An exercise's `duration` and `calories` are the raw `parseInt` results. The page never
  checks for `NaN`, so an entry can hold `None`.
- Weights are exact `real`s. Calories are unbounded integers. Timestamps are integer
  milliseconds since the epoch.
- The local time zone is a fixed offset `offsetMs` ahead of UTC.
- Clocks, `Date.now()` ids, the signed-in user and the store's answers are all parameters.

Behaviour of the code that the model keeps as written:
- Goal progress is the signed `(72 - current) / (72 - 65) * 100` (src/pages/Weight.tsx:32),
  with fixed start and goal constants. It is clamped only for the bar's width
  (src/pages/Weight.tsx:51).
- Remaining-to-goal is the signed `current - 65` (src/pages/Weight.tsx:54), so it is negative
  below the goal.
- The stopwatch is only a running flag and a seconds count (src/pages/Fitness.tsx:12-13).
  Nothing on the page increments the seconds.
- The weight page starts from built-in sample data (src/pages/Weight.tsx:5-18). It fetches
  no records.

## Model

| member | source | states |
|---|---|---|
| `Fitness.WithoutId` | src/pages/Fitness.tsx:29 | an entry is in the result exactly when it is in the list and its id differs from the argument; the result is no longer than the list |
| `Fitness.WithoutIdKeepsOrder` | src/pages/Fitness.tsx:29 | the surviving entries keep their relative order (the result is a subsequence of the list) |
| `Fitness.WithoutIdCounts` | src/pages/Fitness.tsx:29 | exactly the entries carrying the id are removed: the length drops by their number, and every other entry keeps its multiplicity |
| `Fitness.WithoutAbsentId` | src/pages/Fitness.tsx:29 | deleting an id no entry carries leaves the list unchanged |
| `Fitness.WithoutIdIdempotent` | src/pages/Fitness.tsx:29 | deleting twice equals deleting once |
| `Fitness.WithoutIdConcat` | src/pages/Fitness.tsx:29 | the filter distributes over concatenation of lists |
| `Fitness.DeleteUndoesAdd` | src/pages/Fitness.tsx:18-29 | deleting the id of a just-appended entry whose id was unused restores the earlier list |
| `Fitness.NatToStringValue` | src/pages/Fitness.tsx:40 | `toString` of a non-negative integer below 10^21 is a non-empty digit string that reads back as the number, without a leading zero, one digit below 10 and two below 100 |
| `Fitness.PadStart` | src/pages/Fitness.tsx:40 | `padStart` yields the target width (or the original length if longer), ends with the original text and fills the front with the pad character |
| `Fitness.PadZerosValue` | src/pages/Fitness.tsx:40 | zero padding keeps a digit string's value |
| `Fitness.TimerDisplay` | src/pages/Fitness.tsx:40 | the display is a digit field for `floor(t/60)`, a colon and a two-digit field for `t % 60` (below 60); it reads back as `t`, and it is 5 characters for `t` under 6000 |
| `Fitness.CountHeadingShowsCount` | src/pages/Fitness.tsx:103 | the number inside the list heading is the count it was built from, which the page passes as the list length |
| `Fitness.FitnessPage.Heading` | src/pages/Fitness.tsx:103 | the rendered heading is `今日运动 (`, digits, `)`, and the digits read back as the current number of entries |
| `Fitness.FitnessPage.constructor` | src/pages/Fitness.tsx:4-13 | the page starts with the two sample entries, the empty draft of type running, the stopwatch stopped at 0 |
| `Fitness.FitnessPage.AddExercise` | src/pages/Fitness.tsx:15-26 | with an empty duration or calories text nothing changes; otherwise exactly one new entry is appended after the unchanged earlier ones, carrying the given id, the draft's type, the parsed duration and calories, and date `Today`, and the draft is reset; every listed entry then has one of the selector's types and date `Today`; the stopwatch is untouched and the page invariant is kept |
| `Fitness.FitnessPage.Delete` | src/pages/Fitness.tsx:28-30 | the list becomes the id filter of the old list; draft and stopwatch are untouched |
| `Fitness.FitnessPage.SelectKind` | src/pages/Fitness.tsx:63-73 | only the draft's type changes, to one of the selector's five values |
| `Fitness.FitnessPage.EditDuration` | src/pages/Fitness.tsx:75-81 | only the draft's duration text changes |
| `Fitness.FitnessPage.EditCalories` | src/pages/Fitness.tsx:85-91 | only the draft's calories text changes |
| `Fitness.FitnessPage.TogglePlay` | src/pages/Fitness.tsx:43-48 | the running flag flips; seconds, list and draft are unchanged |
| `Fitness.FitnessPage.Reset` | src/pages/Fitness.tsx:49-54 | the stopwatch stops and returns to 0; list and draft are unchanged |
| `Fitness.AddThenDelete` | src/pages/Fitness.tsx:15-30 | on a fresh page, a filled-in add with an unused id grows the list by one entry dated `Today`, and deleting that id gives back the starting list |
| `Home.ReduceIsSum` | src/pages/Home.tsx:32-33 | the left-to-right `reduce` from an initial value adds the column's reference sum to that value |
| `Home.SumConcat` | src/pages/Home.tsx:32-33 | the sum over a concatenation is the sum of the parts (so, by the totals' contracts, intake and burned add up over concatenated result sets) |
| `Home.SumNonNegative` | src/pages/Home.tsx:32-33 | with no negative value the sum is non-negative |
| `Home.SumPermutation` | src/pages/Home.tsx:32-33 | reordering the rows does not change the sum |
| `Home.TotalIntake` | src/pages/Home.tsx:32 | `dietData?.reduce(...) \|\| 0`: no result set gives 0; otherwise the total is the sum of `calories`, a missing or null value counted as 0 (so an empty set gives 0) |
| `Home.TotalBurned` | src/pages/Home.tsx:33 | the same over `calories_burned` |
| `Home.StartOfLocalDayBounds` | src/pages/Home.tsx:15-16 | local midnight is at or before now, less than a day before it, and on a local day boundary |
| `Home.StartOfLocalDayUnique` | src/pages/Home.tsx:15-16 | any instant with those properties is that midnight |
| `Home.TodayRows` | src/pages/Home.tsx:19-30 | both queries: a row is returned exactly when it belongs to the user and was recorded at or after the start |
| `Home.TodayRowsAppend` | src/pages/Home.tsx:19-33 | a new table row changes today's total by its own value if it is the user's and recorded since midnight, and by nothing otherwise |
| `Home.Summarize` | src/pages/Home.tsx:10-38 | without a user, or when `getUser` throws, the summary is unchanged; a query returning no data gives a 0 total |
| `Home.SummarizeCountsToday` | src/pages/Home.tsx:12-35 | with a user, the totals are sums over exactly that user's rows recorded since local midnight |
| `Home.HomePage.constructor` | src/pages/Home.tsx:7 | the summary starts at intake 0, burned 0 |
| `Home.HomePage.FetchSummary` | src/pages/Home.tsx:10-38 | the summary becomes `Summarize` of the old summary and the inputs; it is unchanged without a user |
| `Home.NoUserKeepsZero` | src/pages/Home.tsx:7-13 | a fresh page with no user keeps showing 0 and 0 |
| `Weight.ProgressRoundTrip` | src/pages/Weight.tsx:30-32 | progress and the weight at a given progress are inverse to each other |
| `Weight.ProgressLandmarks` | src/pages/Weight.tsx:30-32 | progress is 0 at 72, 100 at 65 and 50 at 68.5, and strictly falls as the weight rises |
| `Weight.ProgressWidth` | src/pages/Weight.tsx:51 | the bar width lies in [0,100]; it equals the progress when that is in range, is 0 exactly at or above 72 and 100 exactly at or below 65 |
| `Weight.ProgressWidthMonotone` | src/pages/Weight.tsx:51 | a lighter weight never gives a shorter bar |
| `Weight.Remaining` | src/pages/Weight.tsx:54 | the remaining figure is negative exactly below the goal, zero exactly at 100 percent progress, and equals the unfinished share of the 7 kg span |
| `Weight.WeightPage.constructor` | src/pages/Weight.tsx:5-18 | the page starts at 69.2 kg with the seven sample points and empty input, and the current weight is the last point |
| `Weight.WeightPage.EditInput` | src/pages/Weight.tsx:82-88 | only the input text changes |
| `Weight.WeightPage.AddWeight` | src/pages/Weight.tsx:20-28 | empty or unparsable input changes nothing; otherwise the current weight becomes the parsed value, exactly one `{Today, weight}` point is appended after the unchanged history, and the input is cleared; the current weight is then the last point, and that invariant is always kept |
| `Weight.WeightPage.Width` | src/pages/Weight.tsx:51 | the rendered width for the current weight lies in [0,100] |
| `Weight.SubmitUnparsable` | src/pages/Weight.tsx:20-24 | typing text that does not parse and pressing add on a fresh page leaves the weight at 69.2 and the chart as it was |
| `Weight.InitialFigures` | src/pages/Weight.tsx:12-32 | at the initial 69.2 kg the progress and width are 40 and 4.2 kg remain; 69.2 is the last sample point |

## Left out

- The hosted service's calls are outside the model: `getUser`, the table queries' transport, and the auth calls. The model keeps only the filters and sums applied to their results. The session, tables and clock are parameters.
- The sign-in page, diet page, report page, layout and routing are not modelled. Sign-in wraps remote auth calls. The diet page's "recognition" is a timer that assigns a fixed result. The report page shows static sample data. Layout and routing handle only navigation.
- The stopwatch does not tick: the fitness page has no interval that increments the seconds. So no tick is modelled, and neither is a duration or calorie estimate derived from the seconds.
- `parseInt`, `parseFloat`, floating-point rounding and `toFixed(1)` are not modelled concretely. Parses are abstract parameters and weights are exact reals. `parseFloat`'s `Infinity` results are not represented.
- `Date.now()` entry ids are a parameter. No claim is made that they are unique.
- Daylight-saving transitions are not modelled: local midnight uses one fixed offset for the whole day. The ISO text the query compares is taken to be the same instant as the timestamp.
- `Home.Summarize`: an exception is modelled only at the user lookup. In supabase-js a failing query returns `null` data, which the model represents as `None`.
- `Fitness.NatToString`: integers are unbounded, so the exponent form JavaScript's `toString` uses from 10^21 on and the inexact `Math.floor(timer / 60)` past 2^53 are not modelled; the page's counts and seconds stay far below both.
- Rendering, charts and styling are not modelled. The `%` text of the bar width is not built as a string.
