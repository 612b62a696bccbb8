# FitTracker core, modelled in Dafny

FitTracker is a React Native fitness app. This project models the logic inside its components and services:

- **Live workout tracker** (`ActivityTrackerNew.js`):
  - distance-based calories;
  - the pending-distance and pending-climb buffers that each GPS fix feeds and a periodic commit empties;
  - the pause-aware timer;
  - session-relative step counts;
  - the compass heading with its 5° hysteresis and 300 ms map-rotation throttle;
  - the start / pause / resume / stop life cycle and the workout record it saves.
- **Older tracker** (`ActivityTracker.js`):
  - the shortest angle difference and the edge cases of the smoothed heading;
  - a continuous timer whose tick also updates pace and calories;
  - location accumulation;
  - the start guard.
- **Workout store** of the fitness context: add, delete, statistics, recent, lookup, clear.
- **HealthKit import**: type mapping, conversion and the id-deduplicating merge.
- **Screens**: the list filter and sort; the statistics and achievements; the route's map region; calendar navigation and day keys; the home screen's labels; the profile validation chain.
- **App settings**: unit conversion, the unit and theme toggles, the imperial-locale rule.
- **Real-time error service**: a FIFO retry queue, message classification, and a log capped at 100 entries.
- **`findTextNodes`**: the text-node collector.
- **Non-secure `nanoid`**.

Code that changes state step by step is modelled as classes whose methods are proved against specification functions. The tracker, settings and calendar methods ensure `State() == F(old(State()))` for a function `F` of the old state. The store, profile editor and error service methods state each field they change directly. Every method also keeps the invariant of its class, and the properties of the specification functions are proved as lemmas. The stateful classes are:

- `LiveTracker.Tracker`
- `LegacyTracker.Tracker`
- `FitnessStore.Store`
- `AppSettings.Settings`
- `Calendar.MonthView`
- `Profile.ProfileEditor`
- `ErrorService.RealtimeErrorService`

Loops are methods with invariants: `Nanoid.Generate`, `Calendar.GenerateCalendarDays` and `ErrorService.RealtimeErrorService.RunQueue` (the loop of `processErrorQueue`). Pure code is modelled as functions with named results and lemmas.

Several things are inputs rather than computed:

- Time (`now`, in milliseconds).
- The haversine distance between two fixes.
- The compass angle that `atan2` yields.
- `Math.random` draws.
- Date fields: a date is given as a `Stamp` holding epoch milliseconds and its local year, month and day.
- `parseFloat` results: `None` stands for NaN.
- Handler outcomes.

Numbers are unbounded integers and exact reals; where the source rounds a stored value (`toFixed(2)` of an imported distance, `parseInt` of imported calories, the truncated sums of the statistics) the rounding is written out.

## Model

| member | source | states |
|---|---|---|
| Workouts.OrZero | src/context/FitnessContext.tsx:117-122 | `x \|\| 0` on a numeric field: a missing value reads as 0, a present one as itself |
| Workouts.Trunc | src/screens/StatsScreen.js:41-44 | `parseInt` of a number truncates toward zero: within one below (or above, for negatives) the value |
| Workouts.SortDesc | src/screens/ActivitiesScreen.js:51-81 | the sort of a copied list keeps its length |
| Workouts.SortDescStable | src/screens/ActivitiesScreen.js:51-81 | the sort is stable, as `Array.prototype.sort` is: workouts with equal keys keep their relative order |
| Workouts.SortDescSorted | src/screens/ActivitiesScreen.js:52-78 | the sorted copy is ordered largest key first (newest date first; missing date as epoch 0, missing value as 0) |
| Workouts.SortDescPermutation | src/screens/ActivitiesScreen.js:41-81 | the sorted copy is a permutation of the input |
| Workouts.SortDescMembers | src/screens/ActivitiesScreen.js:41-81 | a workout is in the sorted copy iff it is in the input |
| Numbers.Round | src/components/ActivityTrackerNew.js:617 | `Math.round`: the result is within half of the value, halves rounded up |
| Numbers.Max | src/screens/StatsScreen.js:50-58 | `Math.max(...xs)` is at least every value and equals one of them |
| Numbers.Min | src/screens/RouteDetailScreen.js:34-38 | `Math.min(...xs)` is at most every value and equals one of them |
| Numbers.AverageBound | src/screens/StatsScreen.js:46-58 | an average is at most any bound on the values, so at most their maximum |
| Text.NatToString | src/screens/CalendarScreen.js:79 | `String(n)`: at least one decimal digit, no leading zero, one digit below 10 and two below 100 |
| Text.IntToString | src/utils/TextErrorFinder.js:68-70 | `String(n)` of an integer: the digits of its magnitude, with "-" when negative |
| Text.ParseNatToString | src/screens/CalendarScreen.js:79 | reading `String(n)` back gives n |
| Text.NatToStringInjective | src/screens/CalendarScreen.js:79 | different numbers render differently |
| Text.Pad2 | src/screens/CalendarScreen.js:79 | `padStart(2, '0')`: digits, two of them below 100, unpadded from 10 on |
| Text.ParsePad2 | src/screens/CalendarScreen.js:79 | a padded number reads back as itself |
| Text.Pad2Injective | src/screens/CalendarScreen.js:79 | different numbers pad differently |
| Text.ToLower | src/screens/ActivitiesScreen.js:46 | `toLowerCase` keeps the length and lowercases each character |
| Text.IndexOf | src/context/AppContext.js:48-50 | the search finds an occurrence at or after `from`, or -1 exactly when there is none |
| Text.Includes | src/context/AppContext.js:48-50 | `includes` is true iff the word occurs in the text |
| Text.TrimStart | src/screens/ProfileScreen.js:289 | the leading white space, and only that, is removed |
| Text.TrimEnd | src/screens/ProfileScreen.js:289 | the trailing white space, and only that, is removed |
| Text.TrimEmpty | src/screens/ProfileScreen.js:289-292 | `trim()` is empty iff the text is all white space |
| Text.TrimIdempotent | src/screens/ProfileScreen.js:330-331 | trimming twice is trimming once |
| TimeFormat.HmsSplit | src/components/ActivityTrackerNew.js:687-692 | hours, minutes and seconds recombine to the total seconds; minutes below 60 |
| TimeFormat.MsMinutes | src/screens/StatsScreen.js:72-74 | whole minutes through whole seconds equal whole minutes of the milliseconds |
| TimeFormat.LongClock | src/components/ActivityTrackerNew.js:694 | "H:MM:SS" reads back as H·3600+M·60+S |
| TimeFormat.ShortClock | src/components/ActivityTrackerNew.js:696 | "M:SS" reads back as M·60+S |
| TimeFormat.ClockTime | src/components/ActivityTrackerNew.js:687-697 | `formatTime` (and the older tracker's, src/components/ActivityTracker.js:477-487): the text reads back as the whole seconds of the duration; it is "H:MM:SS" from an hour on and "M:SS" below, the leading number unpadded and the other groups two digits under 60 |
| TimeFormat.RouteClockTime | src/screens/RouteDetailScreen.js:61-72 | "0m" for no duration, otherwise clock text that reads back as the whole seconds, with three groups from an hour on and two below |
| TimeFormat.MinutesText | src/screens/StatsScreen.js:80 | "Mm" reads back as M minutes |
| TimeFormat.HoursText | src/screens/HomeScreen.js:75 | "Hh" reads back as H hours |
| TimeFormat.HoursMinutesText | src/screens/StatsScreen.js:78 | "Hh Mm" reads back as H·60+M minutes |
| TimeFormat.HoursMinutes | src/screens/ActivitiesScreen.js:113-123 | the list's and the statistics' `formatTime` (src/screens/StatsScreen.js:72-81): the text reads back as the whole minutes; "0m" under a minute; "Hh Mm" with minutes under 60 from an hour on, "Mm" below |
| TimeFormat.FormatDuration | src/screens/HomeScreen.js:68-78 | `formatDuration` on whole minutes: "0m" for none, the text reads back as the minutes |
| TimeFormat.FormatDurationShape | src/screens/HomeScreen.js:68-78 | the duration text has an hours part from an hour on and a minutes part unless on the hour ("Hh Mm", "Hh" or "Mm"), minutes under 60 after hours |
| TimeFormat.PaceSeconds | src/components/ActivityTracker.js:489-494 | whole minutes and remaining whole seconds of a pace recombine to its whole seconds |
| TimeFormat.FormatPace | src/components/ActivityTracker.js:489-494 | "--:--" for no pace, otherwise "M:SS" (two colon-separated groups, the seconds padded and under 60) that reads back as the pace's whole seconds |
| FitnessStore.AddTo | src/context/FitnessContext.tsx:129-134 | counting a workout into a type's record adds its amounts (missing as 0) and one to the count |
| FitnessStore.FindEntry | src/context/FitnessContext.tsx:125-128 | the type's entry is found exactly when present, else -1 |
| FitnessStore.TallyDescribes | src/context/FitnessContext.tsx:108-141 | the reduce leaves a per-type table that is exactly the per-type sums |
| FitnessStore.TallyTotals | src/context/FitnessContext.tsx:117-137 | totals are the sums (missing as 0), totalWorkouts is the length, and per-type entries sum to the totals |
| FitnessStore.TallyByType | src/context/FitnessContext.tsx:124-137 | every type present has an entry whose fields are its sums |
| FitnessStore.Stamped | src/context/FitnessContext.tsx:93-100 | the stored record has an id and a date; the argument's own id and date win over the generated ones; every other field is the argument's |
| FitnessStore.Without | src/context/FitnessContext.tsx:103-105 | the filtered list keeps no workout with that id |
| FitnessStore.WithoutMembers | src/context/FitnessContext.tsx:103-105 | a workout survives deletion iff it was there with another id |
| FitnessStore.WithoutAppend | src/context/FitnessContext.tsx:103-105 | deletion preserves the order of what remains |
| FitnessStore.WithoutIdempotent | src/context/FitnessContext.tsx:103-105 | deleting twice is deleting once |
| FitnessStore.FirstWithId | src/context/FitnessContext.tsx:151-153 | `find`: the first position with the id, -1 iff none |
| FitnessStore.LookupAfterDelete | src/context/FitnessContext.tsx:103-105 | after deleting an id, looking it up finds nothing |
| FitnessStore.Take | src/context/FitnessContext.tsx:147 | `slice(0, n)`: a prefix of length min(n, length) |
| FitnessStore.RecentProperties | src/context/FitnessContext.tsx:144-148 | at most `limit` workouts, newest first, drawn from the store, none left out newer than one kept |
| FitnessStore.RecentTiesInOrder | src/context/FitnessContext.tsx:144-148 | workouts with the same date appear in the recent list in their stored order (the sort is stable) |
| FitnessStore.TakeNewest | src/context/FitnessContext.tsx:147 | the first n of a list sorted newest first are sorted, drawn from it, and at least as new as the rest |
| FitnessStore.Store.constructor | src/context/FitnessContext.tsx:58 | the store starts empty |
| FitnessStore.Store.AddWorkout | src/context/FitnessContext.tsx:93-100 | exactly one stamped record appended, earlier ones untouched |
| FitnessStore.Store.DeleteWorkout | src/context/FitnessContext.tsx:103-105 | the list becomes `Without(old list, id)` |
| FitnessStore.Store.ClearWorkouts | src/context/FitnessContext.tsx:156-158 | the list becomes empty |
| FitnessStore.Store.GetWorkoutById | src/context/FitnessContext.tsx:151-153 | none iff no workout has the id, otherwise the first one with it |
| FitnessStore.Store.GetRecentWorkouts | src/context/FitnessContext.tsx:144-148 | the recent list of a stably sorted copy (default 5); the stored list is unchanged |
| FitnessStore.Store.GetStats | src/context/FitnessContext.tsx:108-141 | the reduce, one record per loop step: count, totals and per-type sums |
| HealthKit.MapWorkoutType | src/services/HealthKitService.js:222-243 | the table entry for a known type, "Other" iff the type is not in the table |
| HealthKit.MergedTypes | src/services/HealthKitService.js:224-240 | hiking shows as walking; elliptical and stairs as cardio |
| HealthKit.Fixed2 | src/services/HealthKitService.js:211 | `toFixed(2)`'s value: a whole number of hundredths within 0.005 of the input, never negative for a non-negative input |
| HealthKit.Fixed2Exact | src/services/HealthKitService.js:211 | a value already in hundredths is kept exactly |
| HealthKit.Convert | src/services/HealthKitService.js:203-216 | id `healthkit-<startDate>-<index>`, mapped type, seconds × 1000 (0 when missing), distance rounded to hundredths as `toFixed(2)` does (within 0.005, 0 when missing), calories truncated and 0 when missing, no steps, empty route, marked imported |
| HealthKit.ConvertFrom | src/services/HealthKitService.js:200-218 | the map keeps length and order |
| HealthKit.ConvertAll | src/services/HealthKitService.js:200-218 | `convertHealthKitWorkouts`: the i-th record converted with index i |
| HealthKit.ImportIdsDistinct | src/services/HealthKitService.js:208 | records at different positions get different ids |
| HealthKit.Ids | src/services/HealthKitService.js:329 | the id set holds exactly the ids of the list |
| HealthKit.Fresh | src/services/HealthKitService.js:330 | the filter keeps at most the imported records |
| HealthKit.FreshMembers | src/services/HealthKitService.js:330 | an imported record is kept iff its id is new |
| HealthKit.FreshCount | src/services/HealthKitService.js:330 | a record with a new id is kept as often as it was imported |
| HealthKit.MergeProperties | src/services/HealthKitService.js:320-336 | nothing imported leaves the list unchanged; otherwise every existing workout plus exactly the new-id imports, newest first |
| HealthKit.MergeKeepsRepeats | src/services/HealthKitService.js:329-336 | imports are not deduplicated among themselves |
| ActivitiesScreen.SortKeyFor | src/screens/ActivitiesScreen.js:51-81 | "distance" and "duration" sort by value, anything else by date |
| ActivitiesScreen.Matching | src/screens/ActivitiesScreen.js:44-48 | 'all' keeps everything; another filter keeps only workouts whose lowercased type equals it |
| ActivitiesScreen.MatchingMembers | src/screens/ActivitiesScreen.js:44-48 | a workout passes the filter iff it is in the list and matches |
| ActivitiesScreen.MatchingIgnoresCase | src/screens/ActivitiesScreen.js:46 | filters differing only in case select the same workouts |
| ActivitiesScreen.FilterAndSort | src/screens/ActivitiesScreen.js:35-87 | no list gives no rows; otherwise a permutation of the filtered copy, sorted by the chosen key, with ties in their filtered order |
| StatsScreen.Values | src/screens/StatsScreen.js:50-58 | the per-workout values, in order |
| StatsScreen.CalculateStats | src/screens/StatsScreen.js:26-70 | zeros for no workouts; otherwise count, truncated sums, averages per workout, and four bests each at least every value |
| StatsScreen.PersonalBestsReached | src/screens/StatsScreen.js:50-58 | each personal best is the value of some workout |
| StatsScreen.AverageAtMostBest | src/screens/StatsScreen.js:46-58 | each average is at most its personal best |
| StatsScreen.AchievementsAsWritten | src/screens/StatsScreen.js:84-90 | as written: the distance target (31 in miles mode, 50 otherwise) is compared with the total in kilometres |
| StatsScreen.DistanceMasterTooEarly | src/screens/StatsScreen.js:87 | with miles, 31 km completes "31mi total" |
| StatsScreen.Achievements | src/screens/StatsScreen.js:84-90 | the five achievements, each completed exactly at its threshold, distance in the displayed unit |
| StatsScreen.TotalAppend | src/screens/StatsScreen.js:40-44 | one more workout adds its value to a total |
| StatsScreen.TotalsGrow | src/screens/StatsScreen.js:40-44 | a workout with non-negative values never lowers a total |
| StatsScreen.AchievementsMonotone | src/screens/StatsScreen.js:84-90 | higher totals never take an achievement away |
| RouteDetail.Latitudes | src/screens/RouteDetailScreen.js:31 | the latitudes of the route, in order |
| RouteDetail.Longitudes | src/screens/RouteDetailScreen.js:32 | the longitudes of the route, in order |
| RouteDetail.Span | src/screens/RouteDetailScreen.js:41-48 | a span is the larger of the extent padded by 20% and 0.005: at least both, and equal to one of them |
| RouteDetail.GetMapRegion | src/screens/RouteDetailScreen.js:20-50 | the default region for no route; otherwise centred on the bounding box, each span the padded `Span` of its axis's extent |
| RouteDetail.RegionShowsRoute | src/screens/RouteDetailScreen.js:39-48 | every route point lies within the region |
| Calendar.NavigationSteps | src/screens/CalendarScreen.js:110-127 | both moves keep the month in 0..11, move exactly one month, and undo each other |
| Calendar.ForwardIndex | src/screens/CalendarScreen.js:120-127 | n moves forward stay valid and advance n months |
| Calendar.TwelveMonths | src/screens/CalendarScreen.js:120-127 | twelve moves forward give the same month a year later |
| Calendar.MonthView.constructor | src/screens/CalendarScreen.js:13-14 | the view starts on the given month |
| Calendar.MonthView.NextMonth | src/screens/CalendarScreen.js:120-127 | `nextMonth` |
| Calendar.MonthView.PreviousMonth | src/screens/CalendarScreen.js:110-117 | `previousMonth` |
| Calendar.ReadKey | src/screens/CalendarScreen.js:79 | a day key reads back as year, month number (1-based) and day (also lines 145, 152) |
| Calendar.KeyMatches | src/screens/CalendarScreen.js:79-83 | two dates have the same key iff same year, month and day (also lines 152-154) |
| Calendar.InvalidDateMatchesNoDay | src/screens/CalendarScreen.js:81-82 | an unparseable date matches no real day |
| Calendar.AnyOnDayExists | src/screens/CalendarScreen.js:80-84 | `some` is true iff a workout has the key |
| Calendar.DayCell | src/screens/CalendarScreen.js:74-103 | the cell of day d shows d |
| Calendar.DayCellMarked | src/screens/CalendarScreen.js:79-84 | a day is marked iff a workout falls on that year, month and day |
| Calendar.LeadingBlanks | src/screens/CalendarScreen.js:69-71 | the first loop pushes exactly n empty cells |
| Calendar.MonthDays | src/screens/CalendarScreen.js:74-104 | the second loop pushes one cell per day, in order |
| Calendar.GenerateCalendarDays | src/screens/CalendarScreen.js:63-107 | firstDayOfMonth blanks followed by daysInMonth day cells |
| Calendar.RowOf | src/screens/CalendarScreen.js:155-159 | 'Activity' for no type; '--' or the rounded minutes; '--' or the distance |
| Calendar.OnDay | src/screens/CalendarScreen.js:149-155 | the filter keeps only workouts with the key |
| Calendar.OnDayMembers | src/screens/CalendarScreen.js:149-155 | a workout is kept iff it has the key |
| Calendar.RowsForDay | src/screens/CalendarScreen.js:138-160 | no workouts give no rows; otherwise one row per workout of the day, in order |
| Calendar.RowsAreThatDay | src/screens/CalendarScreen.js:145-154 | the rows come exactly from workouts on the selected year, month and day |
| AppSettings.Convert | src/context/AppContext.js:136-160 | NaN shows as 0; a number is scaled by 0.621371 in miles mode, unchanged otherwise |
| AppSettings.ConvertMonotone | src/context/AppContext.js:136-160 | conversion keeps order and sign, and shrinks positive values in miles |
| AppSettings.UnitLabel | src/context/AppContext.js:162-168 | the distance label is 'mi' or 'km', the speed label 'mph' or 'km/h' |
| AppSettings.UnitLabelsAgree | src/context/AppContext.js:162-168 | the two labels name the same system, miles iff `useMiles` |
| AppSettings.IsImperial | src/context/AppContext.js:48-50 | imperial iff the locale contains US, LR or MM, or the region is one of them (also lines 130-132) |
| AppSettings.ImperialLocale | src/context/AppContext.js:48-50 | a "-US" locale selects miles whatever the region |
| AppSettings.LoadedDefaults | src/context/AppContext.js:32-53 | with nothing saved, theme and units follow the system, not manual |
| AppSettings.ToggleTwice | src/context/AppContext.js:107-122 | a toggle makes its setting manual; two toggles restore the flag; the other setting is untouched |
| AppSettings.ManualThemeSticks | src/context/AppContext.js:64-73 | after a manual toggle system changes are ignored; after following the system they apply (also lines 107-117) |
| AppSettings.Settings.constructor | src/context/AppContext.js:14-18 | the initial flags |
| AppSettings.Settings.LoadSettings | src/context/AppContext.js:23-61 | saved preferences when present, else the system theme and locale units |
| AppSettings.Settings.ToggleDarkMode | src/context/AppContext.js:107-110 | `toggleDarkMode` |
| AppSettings.Settings.FollowSystemTheme | src/context/AppContext.js:113-117 | `followSystemTheme` |
| AppSettings.Settings.OnSystemThemeChange | src/context/AppContext.js:64-73 | only a theme that follows the system changes |
| AppSettings.Settings.ToggleUnits | src/context/AppContext.js:119-122 | `toggleUnits` |
| AppSettings.Settings.FollowSystemUnits | src/context/AppContext.js:125-134 | `followSystemUnits` |
| Profile.ValidateProfile | src/screens/ProfileScreen.js:287-344 | the checks in order: blank name, then a non-number, then weight 20..500, height 100..250, age 1..120; saved iff all pass, name and email trimmed |
| Profile.ValidationIgnoresUnits | src/screens/ProfileScreen.js:304-324 | success and the saved profile do not depend on the unit mode |
| Profile.ResaveUnchanged | src/screens/ProfileScreen.js:326-344 | saving a saved profile again saves the same profile |
| Profile.DisplayWeight | src/screens/ProfileScreen.js:264-275 | '--' for empty, the raw text unless a number in imperial mode, then pounds |
| Profile.DisplayHeight | src/screens/ProfileScreen.js:276-286 | '--' for empty, the raw text unless a number in imperial mode, then feet |
| Profile.ConvertInputToMetric | src/screens/ProfileScreen.js:396-409 | non-numbers and metric mode pass through; typed pounds and feet convert back |
| Profile.DisplayThenInput | src/screens/ProfileScreen.js:264-286 | the input conversion undoes the display conversion (also lines 396-409) |
| Profile.ProfileEditor.constructor | src/screens/ProfileScreen.js:29-43 | no saved profile, not editing |
| Profile.ProfileEditor.SaveProfile | src/screens/ProfileScreen.js:287-344 | a failed check changes nothing; a pass saves the profile and leaves edit mode |
| HomeScreen.DurationLabelAsWritten | src/screens/HomeScreen.js:68-78 | as written: the milliseconds are read as minutes (also lines 175, 221) |
| HomeScreen.HalfHourShownAsThirtyThousandHours | src/screens/HomeScreen.js:175 | a 30-minute workout shows as "30000h" (also lines 221) |
| HomeScreen.DurationLabel | src/screens/HomeScreen.js:68-78 | the text reads back as the whole minutes of the duration |
| HomeScreen.DurationLabelWithinAMinute | src/screens/HomeScreen.js:68-78 | the shown minutes are never more than the duration and less than a minute short |
| HomeScreen.ShownCalories | src/screens/HomeScreen.js:80-83 | 0 for missing or zero, otherwise the rounded calories |
| HomeScreen.ShownCaloriesMonotone | src/screens/HomeScreen.js:80-83 | more calories never show as fewer |
| HomeScreen.ActivityTypeInfo | src/screens/HomeScreen.js:86-95 | walking or cycling entry iff the lowercased type is that, running otherwise |
| HomeScreen.ActivityTypeInfoIgnoresCase | src/screens/HomeScreen.js:93 | case does not matter |
| HomeScreen.DiffDays | src/screens/HomeScreen.js:101-102 | the ceiling of the absolute difference in days |
| HomeScreen.DateLabelAsWritten | src/screens/HomeScreen.js:98-113 | as written: an unparseable date shows the date text |
| HomeScreen.SameInstantIsMinusOneDaysAgo | src/screens/HomeScreen.js:102-110 | a workout stamped now reads "-1 days ago" |
| HomeScreen.DateLabelOf | src/screens/HomeScreen.js:98-113 | Today for at most one day, Yesterday for two, "n days ago" with n in 2..6 up to seven, then the date |
| HomeScreen.DateLabelMonotone | src/screens/HomeScreen.js:98-113 | older workouts never get a more recent label |
| HomeScreen.DateLabelsAgreeAwayFromNow | src/screens/HomeScreen.js:98-113 | the corrected labels agree with the written ones whenever the difference is nonzero |
| ErrorService.MentionsAnyMeans | src/services/RealtimeErrorService.js:210-229 | the case-insensitive test is true iff the message mentions a word |
| ErrorService.LongerAlternativesRedundant | src/services/RealtimeErrorService.js:210-229 | the longer pattern alternatives match only where a shorter one does |
| ErrorService.FindsMeans | src/services/RealtimeErrorService.js:210-229 | the pattern search succeeds iff the word occurs from that position on |
| ErrorService.ClassifyInOrder | src/services/RealtimeErrorService.js:177-207 | the detector table is tried in the source's order: location, network, map, state, storage, else generic |
| ErrorService.ClassifyPriority | src/services/RealtimeErrorService.js:177-207 | location before network before map before state before storage, else generic |
| ErrorService.LocationFirst | src/services/RealtimeErrorService.js:180-212 | any message mentioning GPS goes to the location handler |
| ErrorService.KeepNewest | src/services/RealtimeErrorService.js:368-383 | the log grows to at most 100 and ends with the new entry |
| ErrorService.KeepNewestSuffix | src/services/RealtimeErrorService.js:370-378 | the kept log is a suffix of old + new; nothing is dropped below 100 |
| ErrorService.LogAllAppend | src/services/RealtimeErrorService.js:368-383 | writing one batch and then another is writing both in order |
| ErrorService.LogAllWindow | src/services/RealtimeErrorService.js:370-378 | after any writes the log is the newest 100 of everything written |
| ErrorService.HandlingFailed | src/services/RealtimeErrorService.js:85-86 | a throwing handler is captured as a new 'console' error with no attempts (also lines 163) |
| ErrorService.Requeued | src/services/RealtimeErrorService.js:160-170 | success requeues nothing; failure queues the console record and, while attempts < 3, the record with one more attempt |
| ErrorService.Drain | src/services/RealtimeErrorService.js:157-172 | the loop ends with an empty queue |
| ErrorService.DrainFifo | src/services/RealtimeErrorService.js:157-158 | everything waiting is handled, in queue order, first |
| ErrorService.DrainCount | src/services/RealtimeErrorService.js:157-172 | every waiting record is handled, and each failure adds at most two handlings |
| ErrorService.DrainAttempts | src/services/RealtimeErrorService.js:166-169 | no record is handled after its third retry |
| ErrorService.WrittenLogged | src/services/RealtimeErrorService.js:157-171 | one turn writes the console record of a failed handling, the record itself when the generic handler took it, nothing otherwise |
| ErrorService.DrainLogs | src/services/RealtimeErrorService.js:157-171 | the log gains, in handling order, what each handling wrote: a failure's console record, or a generic record (handleGenericError, lines 322-328) |
| ErrorService.RealtimeErrorService.constructor | src/services/RealtimeErrorService.js:69-80 | an empty queue, not processing |
| ErrorService.RealtimeErrorService.LogToStorage | src/services/RealtimeErrorService.js:368-383 | the log becomes the newest 100; nothing else changes |
| ErrorService.RealtimeErrorService.CaptureWarning | src/services/RealtimeErrorService.js:136-148 | a warning is logged and never queued |
| ErrorService.RealtimeErrorService.HandleNext | src/services/RealtimeErrorService.js:157-171 | one loop turn: the head is handled, requeued as `Requeued` says; a failure logs its console record, a generic record is logged itself, other records log nothing |
| ErrorService.RealtimeErrorService.HandlingThrew | src/services/RealtimeErrorService.js:162-170 | a throwing handler queues and logs its console record, and the record is queued again while under three attempts |
| ErrorService.RealtimeErrorService.RunTurn | src/services/RealtimeErrorService.js:157-171 | one loop turn advances the drain and its log by exactly one `Turn` |
| ErrorService.RealtimeErrorService.RunQueue | src/services/RealtimeErrorService.js:157-172 | the loop empties the queue; the records handled and the log are those of `Drain` and `LogsAfter` |
| ErrorService.RealtimeErrorService.ProcessErrorQueue | src/services/RealtimeErrorService.js:150-175 | returns at once when busy or empty; otherwise drains the queue FIFO, logs what the handlings write, and ends not processing |
| ErrorService.RealtimeErrorService.CaptureError | src/services/RealtimeErrorService.js:120-134 | queued with no attempts, the queue processed with its log writes, then the record's own write; the drain is run to the end before that write (see Left out) |
| ErrorService.GenericCaptureWritesTwice | src/services/RealtimeErrorService.js:131-133 | a generic record captured into an idle, empty queue is written twice, by the generic handler and by `captureError`, when the writes run one after the other (see Left out) |
| TextFinder.FindTextNodes | src/utils/TextErrorFinder.js:63-84 | falsy gives nothing, a string or number its text, other leaves and childless objects nothing |
| TextFinder.ArrayConcatenates | src/utils/TextErrorFinder.js:72-76 | an array yields its children's texts in order; an empty one nothing |
| TextFinder.ArrayOfTexts | src/utils/TextErrorFinder.js:68-76 | a flat array of strings and numbers yields one text per element |
| TextFinder.FalsyChildIgnored | src/utils/TextErrorFinder.js:64-76 | a falsy child contributes nothing |
| TextFinder.WrapperTransparent | src/utils/TextErrorFinder.js:79-83 | an element's children yield what the child yields |
| TextFinder.NoEmptyText | src/utils/TextErrorFinder.js:64-70 | no text found is empty |
| Nanoid.Position | src/components/web-fallbacks/nanoid/non-secure.js:8-19 | a draw picks a valid position of a non-empty alphabet |
| Nanoid.CharAt | src/components/web-fallbacks/nanoid/non-secure.js:19 | `charAt`: the character, or "" outside the string |
| Nanoid.SpelledOverAlphabet | src/components/web-fallbacks/nanoid/non-secure.js:17-20 | one alphabet character per draw, in order |
| Nanoid.SpelledOverNothing | src/components/web-fallbacks/nanoid/non-secure.js:19 | an empty alphabet spells "" |
| Nanoid.Steps | src/components/web-fallbacks/nanoid/non-secure.js:7-18 | the loop runs `size` times, none for a size below 1 |
| Nanoid.Generate | src/components/web-fallbacks/nanoid/non-secure.js:15-22 | the loop spells the first `size` draws |
| Nanoid.CustomAlphabet | src/components/web-fallbacks/nanoid/non-secure.js:15-22 | exactly `size` characters (21 when left out), each the alphabet character its draw picks; "" for an empty alphabet |
| Nanoid.NewId | src/components/web-fallbacks/nanoid/non-secure.js:5-11 | `size` characters (21 by default), all letters and digits |
| LiveTracker.Met | src/components/ActivityTrackerNew.js:393-407 | MET 8.0, 3.8, 7.5, otherwise 5.0 |
| LiveTracker.EffectiveWeight | src/components/ActivityTrackerNew.js:391 | the weight, or 70 when not positive |
| LiveTracker.Calories | src/components/ActivityTrackerNew.js:389-411 | 0 at 0 km, never negative, 100 per km running at 70 kg |
| LiveTracker.CaloriesAdditive | src/components/ActivityTrackerNew.js:410-411 | linear in distance |
| LiveTracker.CaloriesPerKm | src/components/ActivityTrackerNew.js:389-411 | per km at 70 kg: 100 running, 47.5 walking, 93.75 cycling, 62.5 otherwise |
| LiveTracker.CaloriesScale | src/components/ActivityTrackerNew.js:389-411 | the running burn scaled by MET / 8, the 70 kg burn scaled by weight / 70, linear in distance |
| LiveTracker.CaloriesByWeight | src/components/ActivityTrackerNew.js:391-410 | a non-positive weight counts as 70 kg; heavier burns more |
| LiveTracker.HeadingOf | src/components/ActivityTrackerNew.js:197-202 | the heading is in [0,360) and is 360 minus the angle, mod 360 |
| LiveTracker.Abs | src/components/ActivityTrackerNew.js:205 | `Math.abs` |
| LiveTracker.CircularDiff | src/components/ActivityTrackerNew.js:205-206 | the shorter way round between two headings (also lines 736-737) |
| LiveTracker.CircularDiffSymmetric | src/components/ActivityTrackerNew.js:205-206 | symmetric, 0 for equal headings |
| LiveTracker.AcrossNorth | src/components/ActivityTrackerNew.js:205-209 | 359° and 1° are 2° apart, below the threshold |
| LiveTracker.SessionSteps | src/components/ActivityTrackerNew.js:274-275 | the count less the baseline (0 when missing), never negative |
| LiveTracker.SessionStepsMonotone | src/components/ActivityTrackerNew.js:274-275 | a higher count never shows fewer steps |
| LiveTracker.ClimbFrom | src/components/ActivityTrackerNew.js:356-361 | a positive rise, only when both altitudes are truthy |
| LiveTracker.Followed | src/components/ActivityTrackerNew.js:367-371 | the map follows a fix that moved more than 0.0005° |
| LiveTracker.Elapsed | src/components/ActivityTrackerNew.js:422-442 | the start interval shows now − start − paused, the resume interval now − start |
| LiveTracker.ElapsedAdvances | src/components/ActivityTrackerNew.js:422-442 | the elapsed time advances with the clock |
| LiveTracker.TimerStarted | src/components/ActivityTrackerNew.js:419-428 | `startTimer`: start is now |
| LiveTracker.TimerPausedAsWritten | src/components/ActivityTrackerNew.js:429-437 | as written: a running timer stops, keeps its start and stores now − start − paused; a stopped one is unchanged |
| LiveTracker.TimerPaused | src/components/ActivityTrackerNew.js:429-437 | corrected: stores the shown elapsed time |
| LiveTracker.TimerResumed | src/components/ActivityTrackerNew.js:438-448 | `resumeTimer`: the elapsed time resumes from the paused time |
| LiveTracker.BreaksContinuous | src/components/ActivityTrackerNew.js:419-448 | with the corrected pause, elapsed is running time less breaks over any cycles |
| LiveTracker.FirstBreakContinuousAsWritten | src/components/ActivityTrackerNew.js:429-448 | as written, one cycle is continuous |
| LiveTracker.SecondBreakLosesTimeAsWritten | src/components/ActivityTrackerNew.js:434-435 | as written, the second cycle loses the first stretch |
| LiveTracker.Initial | src/components/ActivityTrackerNew.js:47-74 | the first render: not tracking, weight 70 |
| LiveTracker.Fixed | src/components/ActivityTrackerNew.js:342-364 | the fix joins the route; distance pending only after a previous fix; climb pending |
| LiveTracker.Committed | src/components/ActivityTrackerNew.js:449-468 | a positive buffer moves into its total, calories follow the new distance at the current weight, the buffer zeroes |
| LiveTracker.CommitKeepsSums | src/components/ActivityTrackerNew.js:449-468 | pending + total is invariant; commits are idempotent; a zero buffer changes nothing |
| LiveTracker.FixThenCommit | src/components/ActivityTrackerNew.js:342-364 | a fix then a commit adds exactly the step, calories follow (also lines 449-468) |
| LiveTracker.FirstFixAddsNoDistance | src/components/ActivityTrackerNew.js:350 | the first fix adds no distance |
| LiveTracker.SessionStartedResets | src/components/ActivityTrackerNew.js:512-535 | the start resets figures except climb, buffers, baseline and map refs; tracking, not paused |
| LiveTracker.Started | src/components/ActivityTrackerNew.js:476-567 | `startWorkout`: no location gives both flags false; a failed watch clears both flags; climb kept |
| LiveTracker.PausedAt | src/components/ActivityTrackerNew.js:569-576 | paused; timer and updater stopped; the stored time is the corrected pause's (see Findings) |
| LiveTracker.ResumedAt | src/components/ActivityTrackerNew.js:577-583 | running; elapsed continues from the paused time |
| LiveTracker.Ticked | src/components/ActivityTrackerNew.js:421-447 | a tick shows the elapsed time |
| LiveTracker.PauseResumeTick | src/components/ActivityTrackerNew.js:429-448 | with the corrected pause: pause, resume, tick, and the duration picks up where it stopped |
| LiveTracker.StepBaselineSet | src/components/ActivityTrackerNew.js:266-268 | the first reading is the baseline |
| LiveTracker.StepsCounted | src/components/ActivityTrackerNew.js:272-276 | the session steps |
| LiveTracker.Rotated | src/components/ActivityTrackerNew.js:727-768 | the map turns only with a map and location, after 300 ms, more than 5° from the last map heading |
| LiveTracker.RotationThrottled | src/components/ActivityTrackerNew.js:731 | no second rotation within 300 ms |
| LiveTracker.CompassRead | src/components/ActivityTrackerNew.js:194-226 | the heading changes only when more than 5° away; the map follows only while not paused |
| LiveTracker.Reset | src/components/ActivityTrackerNew.js:649-661 | `resetWorkout` zeroes everything including buffers and paused time |
| LiveTracker.StopRecordAsWritten | src/components/ActivityTrackerNew.js:610-619 | as written: the record's type, route, duration, steps, distance and climb are the pre-flush values, calories rounded |
| LiveTracker.StopRecord | src/components/ActivityTrackerNew.js:595-619 | corrected: the record counts the pending distance and climb, with calories of the whole distance; type, route, duration and steps as shown |
| LiveTracker.FinalStretchLostAsWritten | src/components/ActivityTrackerNew.js:595-619 | as written, the pending stretch is missing from the record |
| LiveTracker.Saved | src/components/ActivityTrackerNew.js:621-646 | saved iff the type is non-empty |
| LiveTracker.StoppedAt | src/components/ActivityTrackerNew.js:584-648 | both flags false, timer and updater stopped, all reset |
| LiveTracker.AverageSpeed | src/components/ActivityTrackerNew.js:702-713 | distance over hours when both positive, else 0 |
| LiveTracker.Tracker.constructor | src/components/ActivityTrackerNew.js:47-74 | the initial state |
| LiveTracker.Tracker.LoadUserWeight | src/components/ActivityTrackerNew.js:662-686 | a saved positive weight replaces 70 |
| LiveTracker.Tracker.OnLocation | src/components/ActivityTrackerNew.js:342-364 | the location callback |
| LiveTracker.Tracker.CommitStats | src/components/ActivityTrackerNew.js:449-468 | the commit tick, at the current weight |
| LiveTracker.Tracker.StartWorkout | src/components/ActivityTrackerNew.js:476-567 | `startWorkout`, keeping the invariant |
| LiveTracker.Tracker.StartSession | src/components/ActivityTrackerNew.js:512-535 | the reset block and timer start |
| LiveTracker.Tracker.ClearSession | src/components/ActivityTrackerNew.js:512-532 | the reset block |
| LiveTracker.Tracker.PauseWorkout | src/components/ActivityTrackerNew.js:569-576 | `pauseWorkout`, with the corrected pause |
| LiveTracker.Tracker.ResumeWorkout | src/components/ActivityTrackerNew.js:577-583 | `resumeWorkout` |
| LiveTracker.Tracker.Tick | src/components/ActivityTrackerNew.js:421-427 | the timer tick |
| LiveTracker.Tracker.OnStepBaseline | src/components/ActivityTrackerNew.js:266-268 | the baseline reading |
| LiveTracker.Tracker.OnStepCount | src/components/ActivityTrackerNew.js:272-276 | the pedometer callback |
| LiveTracker.Tracker.OnCompass | src/components/ActivityTrackerNew.js:194-226 | the magnetometer callback |
| LiveTracker.Tracker.StopWorkout | src/components/ActivityTrackerNew.js:584-648 | the corrected record is returned, and the tracker is stopped and reset |
| LiveTracker.Tracker.ResetWorkout | src/components/ActivityTrackerNew.js:649-661 | `resetWorkout` |
| LegacyTracker.ShortestAngleDifference | src/components/ActivityTracker.js:538-546 | in [-180,180] for headings in [0,360), and equal to target − current up to ±360 |
| LegacyTracker.ShortestTurn | src/components/ActivityTracker.js:538-546 | the turn lands on the target mod 360 and no congruent turn is shorter |
| LegacyTracker.SmoothHeading | src/components/ActivityTracker.js:517-535 | 0 for no readings, the reading for one; otherwise the mean itself or the mean plus 360, landing in 0..360 |
| LegacyTracker.Multiplier | src/components/ActivityTracker.js:352-366 | 0.75, 0.5, 0.4, otherwise 0.6 |
| LegacyTracker.TickCalories | src/components/ActivityTracker.js:367-368 | distance × 70 × multiplier: 0 at 0, at most 52.5 per km |
| LegacyTracker.TickCaloriesPerKm | src/components/ActivityTracker.js:352-368 | linear in distance: 52.5 per km running, 35 cycling, 28 walking, 42 otherwise |
| LegacyTracker.MultiplierOrder | src/components/ActivityTracker.js:352-368 | walking burns least, running most |
| LegacyTracker.Pace | src/components/ActivityTracker.js:346-349 | pace × distance is the elapsed minutes |
| LegacyTracker.PaceShown | src/components/ActivityTracker.js:346-349 | the shown pace reads back as the pace's whole seconds, "--:--" at 0 (also lines 489-494) |
| LegacyTracker.SpeedLabel | src/components/ActivityTracker.js:495-505 | "pace" for running and walking, else mph iff miles |
| LegacyTracker.SpeedKmh | src/components/ActivityTracker.js:286-288 | a reported m/s speed in km/h; a negative reading shows 0 |
| LegacyTracker.ClockStarted | src/components/ActivityTracker.js:340-344 | `startTimer`: elapsed resumes from the paused time |
| LegacyTracker.ClockPaused | src/components/ActivityTracker.js:374-379 | `pauseTimer` stores the elapsed time once an interval was set |
| LegacyTracker.ClockContinuous | src/components/ActivityTracker.js:340-379 | continuous over any number of pause/resume cycles |
| LegacyTracker.AgreesWithLiveTimer | src/components/ActivityTracker.js:340-379 | agrees with the live tracker's corrected timer |
| LegacyTracker.Located | src/components/ActivityTracker.js:259-288 | the fix joins the route; distance and climb added directly; a reported speed in km/h |
| LegacyTracker.TickedAsWritten | src/components/ActivityTracker.js:340-371 | the interval as written: duration from the clock; pace and calories from the distance captured when the timer started; nothing else changes |
| LegacyTracker.StaleDistanceAsWritten | src/components/ActivityTracker.js:340-371 | as written, a start from 0 km keeps calories at 0 and the pace unchanged on every tick, where the corrected tick counts the distance covered |
| LegacyTracker.Ticked | src/components/ActivityTracker.js:342-370 | corrected tick: duration, pace when there is distance, calories from the current distance |
| LegacyTracker.Started | src/components/ActivityTracker.js:381-394 | nothing without a location; otherwise the route is just that location |
| LegacyTracker.PausedAt | src/components/ActivityTracker.js:396-401 | paused, elapsed stored |
| LegacyTracker.ResumedAt | src/components/ActivityTracker.js:403-408 | running, timer restarted |
| LegacyTracker.StoppedAt | src/components/ActivityTracker.js:418-430 | flags cleared, interval stopped, all figures zero (also lines 465-475) |
| LegacyTracker.Tracker.constructor | src/components/ActivityTracker.js:16-35 | the initial state |
| LegacyTracker.Tracker.OnLocation | src/components/ActivityTracker.js:259-288 | the location callback |
| LegacyTracker.Tracker.Tick | src/components/ActivityTracker.js:342-370 | the corrected interval tick |
| LegacyTracker.Tracker.StartWorkout | src/components/ActivityTracker.js:381-394 | `startWorkout` |
| LegacyTracker.Tracker.PauseWorkout | src/components/ActivityTracker.js:396-401 | `pauseWorkout` |
| LegacyTracker.Tracker.ResumeWorkout | src/components/ActivityTracker.js:403-408 | `resumeWorkout` |
| LegacyTracker.Tracker.StopWorkout | src/components/ActivityTracker.js:410-475 | the saved figures are those at stop, then the reset |

## Left out

- Sensor and permission plumbing:
  - location permission and watching;
  - magnetometer and pedometer subscriptions and their health checks;
  - focus effects.
- Haversine distance, `atan2`, `sin` and `cos`:
  - the per-fix distance and the compass angle are inputs;
  - the circular mean of the older tracker's `calculateSmoothHeading` is an input, so its accumulating loop is not modelled.
- `setInterval` / `clearInterval` scheduling: ticks and commits are explicit calls with an explicit `now`.
- React's batching of state setters: functional updaters are evaluated at once, in call order.
  - The elevation commit's updater reads the buffer lazily. The model evaluates it before the buffer is zeroed, so the climb totals of LiveTracker.Committed, LiveTracker.Tracker.CommitStats and LiveTracker.StopRecord include the buffered climb.
  - The magnetometer listener compares against the `heading` captured by its closure. The model uses the current heading.
- The live tracker's `targetMapHeading` and `headingBuffer` refs, which nothing in the modelled code reads.
- The live tracker's `lastLocationRef` is never cleared. The model keeps it too, so a new workout's first fix counts distance from the previous workout's last fix.
- AsyncStorage, FileSystem, ImagePicker, native HealthKit queries and mock data, `fetch`, `Alert`, `window` and the console, in particular:
  - the handler bodies of the error service;
  - its monitoring and health checks;
  - the retry delay;
  - ids and timestamps;
  - the asynchronous interleaving of log writes.
- ErrorService.RealtimeErrorService.ProcessErrorQueue: termination relies on finitely many failing handlings. The outcomes of a run are a finite sequence, and handlings past its end succeed.
- `Date`:
  - parsing, weekday, month length, `toLocaleDateString` and `toLocaleTimeString` are given as `Stamp` fields and integers;
  - the calendar's "today" and "selected" highlighting.
- `toLocaleString` and, except for the stored HealthKit distance (`HealthKit.Fixed2`), `toFixed` are not modelled. The number to be rendered is modelled instead: `Profile.Shown.Fixed`, `HomeScreen.ShownCalories`, the older tracker's `getSpeedValue`, and the live tracker's speed text beyond `LiveTracker.AverageSpeed`.
- `parseFloat` and `parseInt` of text are inputs.
- Workouts.Key: a missing date reads as epoch 0, as the activity list's comparator makes it (src/screens/ActivitiesScreen.js:54-55). The merge and recent-list comparators (src/services/HealthKitService.js:335, src/context/FitnessContext.tsx:146) compute NaN for a missing date, and every comparator does so for a date text that does not parse. A NaN comparison leaves the order to the engine, so those cases are not modelled; dates are `Stamp`s or missing.
- HealthKit.Merge: orders missing dates as epoch 0; see `Workouts.Key`.
- FitnessStore.Recent: orders missing dates as epoch 0; see `Workouts.Key`.
- ActivitiesScreen.FilterAndSort: an unparseable date is not modelled; see `Workouts.Key`.
- Values of the wrong type, such as a number where a string is expected, and NaN distances are not modelled.
  - The live tracker's NaN guard on the saved distance is therefore not modelled.
  - ActivitiesScreen.FilterAndSort treats a non-array workouts value the same as a missing one.
- Text.ToLower: ASCII letters only. JavaScript's full Unicode case mapping is not modelled.
- TextFinder.FindTextNodes: numbers are integers. `String()` of fractions, NaN and Infinity is not modelled.
- Nanoid:
  - `Math.random` is an input sequence of draws in [0, 1);
  - a fractional `size` is not modelled (sizes are integers).
- HealthKit.MapWorkoutType: a type named like an `Object.prototype` property (e.g. "constructor") would find an inherited value in the source's lookup table. Such names are not modelled.
- HomeScreen.ActivityTypeInfo: a lowercased type named like an `Object.prototype` property (e.g. "constructor") would find an inherited value in the source's table (src/screens/HomeScreen.js:93). Such names are not modelled.
- FitnessStore.TallyByType: a workout type named like an `Object.prototype` property would find an inherited value in the reduce's `byType` object (src/context/FitnessContext.tsx:123-135). Such names are not modelled; the per-type table is a map.
- HealthKit.Convert: the source stores the distance as `toFixed(2)`'s text. The model keeps that text's numeric value (`HealthKit.Fixed2`), so the string `+=` that `getStats` would apply to an imported record's distance (src/context/FitnessContext.tsx:119) is not modelled.
- StatsScreen.CalculateStats: the personal bests are the numbers before formatting. `formatDistance` (src/screens/StatsScreen.js:53) converts to miles and applies `toFixed(2)`, and `formatTime` and `toLocaleString` render the others; that text is not modelled.
- LegacyTracker.Ticked: the source's interval reads the `distance` captured by the render that started the timer (src/components/ActivityTracker.js:340-371, started at 381-408). The model's tick uses the current distance; the as-written tick is `LegacyTracker.TickedAsWritten`; see Findings.
- LegacyTracker.Tracker.Tick: the corrected tick, as `LegacyTracker.Ticked`.
- LiveTracker.Committed: the source's stats updater calls the `calculateCalories` of the render that started it (src/components/ActivityTrackerNew.js:449-460, started at 538 and 580), which reads that render's `userWeight` (line 391). A weight loaded during a segment therefore counts only after a pause and resume. The model uses the current weight.
- LiveTracker.Tracker.CommitStats: the current weight, as `LiveTracker.Committed`.
- ErrorService.RealtimeErrorService.CaptureError: the source does not await `processErrorQueue` (src/services/RealtimeErrorService.js:132), so the record's own write is issued as soon as the first handling awaits, before later handlings, retries and console records. The model runs the whole drain first, so the record is the newest log entry.
- ErrorService.GenericCaptureWritesTwice: states the two writes as the model runs them, one after the other. In the source both `logToStorage` calls read the stored log before either writes it back (lines 368-380), so the stored log gains the record once.
- LiveTracker.Fixed: the source's location watcher compares each fix with the `location` state captured when the subscription was made (src/components/ActivityTrackerNew.js:316, 367-371). The model compares with the current location.
- LiveTracker.Tracker.OnLocation: the same captured `location` as `LiveTracker.Fixed`; the model uses the current one.
- LiveTracker.PausedAt: uses the corrected pause (the elapsed time the interval shows), not the as-written `pauseTimer` of src/components/ActivityTrackerNew.js:434-435; see Findings.
- LiveTracker.Tracker.PauseWorkout: uses the corrected pause, as `LiveTracker.PausedAt`.
- LiveTracker.PauseResumeTick: is stated for the corrected pause; the as-written pause is `LiveTracker.SecondBreakLosesTimeAsWritten`.
- Profile.ProfileEditor:
  - the user is `None` until the first save, not the source's record of empty strings;
  - the keystroke round trip of the weight and height fields is not modelled: the field shows `getInputWeight`'s or `getInputHeight`'s `toFixed(1)` text, and each keystroke stores `convertInputToMetric` of the typed text (src/screens/ProfileScreen.js:371-394, 580-599); only `convertInputToMetric` itself is modelled;
  - photo picking, sync and data erasure are not modelled.
- TimeFormat.FormatDuration: its input is whole minutes. `Math.round` of a fractional minute remainder is not modelled.
- The older tracker's `getSpeedValue` and `saveWorkout`'s id and date come from `toFixed` and `Date`. Saving to storage is the returned record.
- Rendering, styles, navigation, the test and minimal app shells, and the error-testing JSX patterns of `TextErrorFinder.js`.

## Findings

| source | as written | input that shows it | evidently intended | confidence | as-written member | corrected member |
|---|---|---|---|---|---|---|
| src/components/ActivityTrackerNew.js:434-435 | `pauseTimer` stores now − start − paused. After a resume the interval shows now − start, so the second pause subtracts the stored time again. | start 0, pause 10, resume 20, pause 30, resume 40: the timer shows 10 at 40 instead of 20 | the pause stores the elapsed time the running interval shows | high (not executed) | LiveTracker.SecondBreakLosesTimeAsWritten | LiveTracker.BreaksContinuous |
| src/screens/HomeScreen.js:175-221 | `formatDuration` reads its argument as minutes, but both callers pass milliseconds | a 30-minute workout (1 800 000 ms) shows "30000h" | convert milliseconds to minutes first | high (not executed) | HomeScreen.HalfHourShownAsThirtyThousandHours | HomeScreen.DurationLabel |
| src/screens/HomeScreen.js:102-110 | a zero day difference falls through to the "≤ 7" bucket | a workout stamped at the current millisecond shows "-1 days ago" | "Today" | medium (not executed) | HomeScreen.SameInstantIsMinusOneDaysAgo | HomeScreen.DateLabelOf |
| src/screens/StatsScreen.js:87 | in miles mode the 31 target is compared with the total in kilometres | 31 km (about 19.3 mi) completes "Complete 31mi total" | compare the total converted to miles | high (not executed) | StatsScreen.DistanceMasterTooEarly | StatsScreen.Achievements |
| src/components/ActivityTrackerNew.js:595-619 | the record is built from the state values captured before the final flush | a pending 0.2 km at stop is missing from the saved distance | save the flushed totals | high (not executed) | LiveTracker.FinalStretchLostAsWritten | LiveTracker.StopRecord |
| src/components/ActivityTracker.js:340-371 | the older tracker's interval reads the `distance` of the render that called `startTimer`, so pace and calories use the distance at the last start or resume | start at 0 km and run 2 km without pausing: the calories stay 0 and the pace is never set, and `saveWorkout` stores those | compute pace and calories from the current distance | high (not executed) | LegacyTracker.StaleDistanceAsWritten | LegacyTracker.Ticked |
