# Sleep tracker core, modelled in Dafny

The app logs sleep sessions with a start/stop timer, keeps the finished sessions
newest-first on the device, and computes statistics over a chosen period. Its
logic lives in two React hooks, and this project models both of them:

- **Statistics engine** (`hooks/use-stats.ts`, module `UseStats`). This is a pure
  function of the records, the period selector, the optional custom range and the
  current instant. It resolves the window, keeps the records whose start lies in
  the window (both ends inclusive), and returns count, total, daily average,
  maximum and minimum.
  - Hours are kept as integer tenths, which is what `Math.round(x * 10) / 10`
    leaves of them. The total is `(minutes + 3) / 6` and the average is
    `(minutes + 3·days) / (6·days)`, with floor division.
  - Both are proved to be the half-up rounding of the exact quotient.
  - `ComputeStats` is a function on values, so it cannot change the records it
    is given.
- **Session tracker and record list** (`hooks/use-sleep-storage.ts`, module
  `UseSleepStorage`). This is the class `SleepStorage`:
  - `records` and `sleepState` are its in-memory state.
  - Two ghost fields stand for the two keys it writes in the key-value store.
  - Each method takes the store's answer as a flag and the clock's reading as
    `now`.
  - Every write happens first and is committed to memory only when it
    succeeds. Every method keeps `Committed()`: memory equals what a reload
    from the store would produce.
- **Supporting modules.**
  - `SleepTypes`: the types of `types/sleep.ts`.
  - `Sequences`: `filter`, `map` and the folds, with their laws.
  - `Decimal`: the `toString` that turns a start instant into a record id,
    proved injective through its inverse.

Instants are integer milliseconds. The record fields that the app stores as
ISO 8601 strings are these integers here.

A few behaviours of the code are worth naming, because the model keeps them:

- `updateRecord` and `deleteRecord` act on **every** record with the id, not
  only the first (`hooks/use-sleep-storage.ts:133-134` maps over the whole list,
  `hooks/use-sleep-storage.ts:143` filters it).
- The daily average divides the **unrounded** total. It divides by the days from
  the window's start up to **now**, even for a custom range that ended earlier
  (`hooks/use-stats.ts:63-66`, `CustomAverageCountsDaysToNow`).
- `startSleep` has no guard: starting while already asleep moves the start
  time (`hooks/use-sleep-storage.ts:80-86`).
- `endSleep` makes two separate writes (`hooks/use-sleep-storage.ts:107-116`).
  If the records write succeeds and the state write fails, the record is kept
  and the session is still running. A retry then stores a second record with
  the same id (`EndSleepRetriedAfterStateWriteFailure`).

## Model

| member | source | states |
|---|---|---|
| SleepTypes.Sleeping | types/sleep.ts:22-27 | a started session's state is consistent: sleeping, with the start instant present |
| SleepTypes.Merge | hooks/use-sleep-storage.ts:134 | object spread of an edit: each supplied field replaces the record's, every other field is kept |
| SleepTypes.MergeIdempotent | hooks/use-sleep-storage.ts:134 | merging the same edit twice equals merging it once; the empty edit changes nothing |
| Sequences.Filter | hooks/use-stats.ts:39-43 | the result holds only passing elements, each passing element as often as in the input, in input order (subsequence) |
| Sequences.FilterIdempotent | hooks/use-sleep-storage.ts:143 | filtering twice by the same predicate equals filtering once |
| Sequences.FilterAllPass | hooks/use-sleep-storage.ts:143 | a filter that every element passes returns the list unchanged |
| Sequences.FilterAppend | hooks/use-stats.ts:39-43 | filtering distributes over concatenation |
| Sequences.FilterWeakerKeepsMore | hooks/use-stats.ts:39-43 | a weaker predicate keeps at least as many elements |
| Sequences.Map | hooks/use-stats.ts:68 | same length, element i is f of input element i |
| Sequences.Sum | hooks/use-stats.ts:56-59 | the sum of the minutes; a left-to-right `reduce` with `+` from any start value adds exactly this sum to it |
| Sequences.SumBounds | hooks/use-stats.ts:56-59 | a sum of non-negative numbers is non-negative and at least each term |
| Sequences.Max | hooks/use-stats.ts:69 | the result occurs in the list and no element exceeds it |
| Sequences.Min | hooks/use-stats.ts:70 | the result occurs in the list and no element is below it |
| Decimal.NatToString | hooks/use-sleep-storage.ts:101 | a non-empty string of digits with no leading zero unless the number is 0 |
| Decimal.IntToString | hooks/use-sleep-storage.ts:101 | non-empty, and starts with a minus sign exactly for negative numbers |
| Decimal.ParseNatToString | hooks/use-sleep-storage.ts:101 | reading back the digits of n gives n |
| Decimal.ParseIntToString | hooks/use-sleep-storage.ts:101 | reading back the rendering of any integer gives the integer |
| Decimal.IntToStringInjective | hooks/use-sleep-storage.ts:101 | two instants render alike exactly when they are equal |
| UseStats.ResolveWindow | hooks/use-stats.ts:17-41 | a custom selector with a range uses it verbatim; every other case ends now, contains now, and starts the period's days before |
| UseStats.FixedPeriodWindows | hooks/use-stats.ts:20-35 | the last 24 hours, 3, 7 and 30 days start that many days before now and end now; the custom selector without a range starts seven days before now |
| UseStats.CeilDiv | hooks/use-stats.ts:63-65 | the least integer c with a <= b*c |
| UseStats.DayCount | hooks/use-stats.ts:63-66 | at least 1; the ceiling of the elapsed days from the window start to now whenever that exceeds 1 |
| UseStats.TotalTenths | hooks/use-stats.ts:73 | the tenths are minutes/6 rounded half up: 6t-3 <= minutes < 6t+3 |
| UseStats.AverageTenths | hooks/use-stats.ts:74 | the tenths are minutes/(6*days) rounded half up |
| UseStats.StatsOver | hooks/use-stats.ts:38-78 | count equals the records starting in the window; zero stats exactly when none does; min <= max, both bound every counted duration and both are reached by a counted record; total and average are the rounded tenths of the counted minutes |
| UseStats.ComputeStats | hooks/use-stats.ts:7-80 | for the resolved window: the count is the records starting in it; zero stats exactly when none does; min <= max, both bound every counted duration and each is reached by a counted record; the total is the counted minutes in tenths of an hour and the average those minutes over the day count, both rounded half up |
| UseStats.KeptDurationBounds | hooks/use-stats.ts:68-70 | max and min of the kept durations bound and are reached by input records starting in the window |
| UseStats.NoRecordsGiveZeroStats | hooks/use-stats.ts:46-54 | no records give all-zero statistics for every period |
| UseStats.CustomWithoutRangeIsLastWeek | hooks/use-stats.ts:17-35 | the custom selector without a range gives the statistics of the last seven days |
| UseStats.LongerPeriodCountsMore | hooks/use-stats.ts:20-43 | the fixed periods nest: a longer one never counts fewer records |
| UseStats.PrependedRecordStats | hooks/use-stats.ts:39-60 | a record put in front adds one to the count and its minutes to the total exactly when it starts in the window |
| UseStats.NonNegativeStats | hooks/use-stats.ts:56-77 | with non-negative durations, average, total and minimum are non-negative and the average never exceeds the total |
| UseStats.AverageAtMostTotal | hooks/use-stats.ts:63-74 | spreading non-negative minutes over one day or more never rounds above the total |
| UseStats.TwoNightsInLastWeek | hooks/__tests__/use-stats.test.ts:49-71 | 480 and 420 minutes in the last week: 2 records, 15.0 hours, max 480, min 420 |
| UseStats.TenDaysAgoOnlyInLastMonth | hooks/__tests__/use-stats.test.ts:83-104 | a record from ten days ago is outside the 7-day window and inside the 30-day one; one from a day ago is inside |
| UseStats.OneNightAverage | hooks/__tests__/use-stats.test.ts:106-121 | one 480-minute night in the last week averages 1.1 hours, strictly between 1 and 2 |
| UseStats.CustomAverageCountsDaysToNow | hooks/use-stats.ts:62-66 | a custom range's average divides by the days from its start to now, not to its end |
| UseSleepStorage.RoundedMinutes | hooks/use-sleep-storage.ts:98 | the elapsed milliseconds rounded half up to whole minutes |
| UseSleepStorage.FinishedRecord | hooks/use-sleep-storage.ts:96-105 | id is the start instant in decimal, start and end are the session's, duration is the rounded minutes and non-negative when the end is not before the start |
| UseSleepStorage.FinishedRecordIds | hooks/use-sleep-storage.ts:101 | two finished sessions share an id exactly when they began at the same instant |
| UseSleepStorage.EightHourNight | hooks/__tests__/use-sleep-storage.test.ts:12-18 | 22:00 to 06:00 gives 480 minutes |
| UseSleepStorage.DeleteById | hooks/use-sleep-storage.ts:142-145 | no record with the id is left, every other record keeps its multiplicity and relative order |
| UseSleepStorage.DeleteUnknownId | hooks/use-sleep-storage.ts:143 | deleting an id no record carries leaves the list unchanged |
| UseSleepStorage.DeleteIdempotent | hooks/use-sleep-storage.ts:143 | deleting an id twice equals deleting it once |
| UseSleepStorage.DeleteUndoesAdd | hooks/use-sleep-storage.ts:124-145 | deleting the id of a record just added, when the id was new, restores the previous list |
| UseSleepStorage.UpdateById | hooks/use-sleep-storage.ts:132-137 | same length and order; every record with the id is merged with the edit, the others are unchanged; an unknown id changes nothing |
| UseSleepStorage.UpdateIdempotent | hooks/use-sleep-storage.ts:133-135 | applying the same edit to the same id twice equals applying it once |
| UseSleepStorage.LoadedRecords | hooks/use-sleep-storage.ts:32-36 | the records after reading the key: the stored list when the key is present, the empty list when it is absent |
| UseSleepStorage.LoadedState | hooks/use-sleep-storage.ts:39-43 | the session state after reading the key: the stored state when present, awake when absent |
| UseSleepStorage.SleepStorage.constructor | hooks/use-sleep-storage.ts:12-16 | a fresh hook: no records, awake, nothing stored, committed |
| UseSleepStorage.SleepStorage.Load | hooks/use-sleep-storage.ts:27-49 | after reading the store, memory holds the stored values or the defaults for absent keys |
| UseSleepStorage.SleepStorage.Committed | hooks/use-sleep-storage.ts:54-75 | memory is committed when each field equals the stored value of its key, or its default when the key is absent |
| UseSleepStorage.SleepStorage.SaveRecords | hooks/use-sleep-storage.ts:54-62 | a successful write stores and commits the list; a failed one changes nothing and reports WriteFailed |
| UseSleepStorage.SleepStorage.SaveState | hooks/use-sleep-storage.ts:67-75 | the same for the session state |
| UseSleepStorage.SleepStorage.StartSleep | hooks/use-sleep-storage.ts:80-86 | on success the state is sleeping since now, whatever it was; the records are untouched |
| UseSleepStorage.SleepStorage.EndSleep | hooks/use-sleep-storage.ts:91-119 | awake or without a start: NoSleepInProgress and nothing changes; otherwise the finished record is prepended and the state reset to awake, each only if its write succeeds, and the record is returned when both do |
| UseSleepStorage.SleepStorage.AddRecord | hooks/use-sleep-storage.ts:124-127 | on success the record is put in front of the unchanged list, without any check |
| UseSleepStorage.SleepStorage.UpdateRecord | hooks/use-sleep-storage.ts:132-137 | on success the list becomes UpdateById of the old list |
| UseSleepStorage.SleepStorage.DeleteRecord | hooks/use-sleep-storage.ts:142-145 | on success the list becomes DeleteById of the old list |
| UseSleepStorage.SleepStorage.ClearAll | hooks/use-sleep-storage.ts:150-162 | on success both keys are gone, no records, awake; a failed removal changes nothing |
| UseSleepStorage.StartThenEnd | hooks/use-sleep-storage.ts:80-119 | start then end with every write succeeding prepends the session's record and leaves the tracker awake |
| UseSleepStorage.EndSleepRetriedAfterStateWriteFailure | hooks/use-sleep-storage.ts:107-116 | when the state write fails after the record write, a retry stores a second record with the same id |

## Left out

- Date strings: the app stores ISO 8601 strings and parses them with `new Date`. The model uses integer instants. It therefore does not show these cases:
  - an unparseable `startTime` gives NaN and is never counted;
  - an empty `currentSleepStart` string counts as no session.
- Number format: `Number.prototype.toString` switches to exponent notation from 10^21. `Decimal.IntToString` covers only the plain decimal form, which every epoch instant in milliseconds uses.
- Floating point: `Math.round` of `x * 10` is modelled on exact integers (tenths of an hour, whole minutes). Float error at exact halves is not modelled.
- UseSleepStorage.SleepStorage.Load: models `loadData` only when both reads succeed. A failed read is caught and logged, and memory keeps its defaults. JSON parsing and the `isLoading` flag are not modelled either.
- The key-value store and JSON encoding are abstract: a ghost field per key, and a flag for each write's success. `multiRemove` counts as all-or-nothing.
- React: `useState`, `useMemo`, `useCallback`, and the stale `records` and `sleepState` captured by callbacks are not modelled. Each call is atomic and sees the current state, so lost updates between concurrent calls are not modelled.
- Partial updates: an edit that names a field with the value `undefined` would blank that field. `RecordUpdate` can only supply a value or leave the field alone.
- Not modelled:
  - the screens, CSV export and theme;
  - the copy of the statistics in the test file, which divides by the period's nominal days.
