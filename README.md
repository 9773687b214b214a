# RIMROD sleep-cycle calculator — verified model

RIMROD suggests bedtimes for a chosen wake-up time, or wake-up times for a
chosen bedtime. Each suggestion is a whole number of sleep cycles plus the
minutes needed to fall asleep. Settings come from a saved record, with
defaults for missing or unusable values: 90-minute cycles, 15 minutes of
latency, 10 options and the "system" theme. A suggestion is flagged as
recommended when it has 5 or 6 cycles.

This project models the arithmetic core of `RimrodApp` (`rimrod-app.js`)
in Dafny:

- `clock.dfy` (module `Clock`): the browser `Date` as a class holding a
  local instant in whole minutes, with `getMinutes`, `setMinutes` and the
  copy constructor `new Date(d)`. It also holds `formatTime`, built from
  `toString` and `padStart(2, '0')`. The displayed `HH:MM` is the instant
  modulo 1440 minutes, so candidates that cross midnight wrap the way
  `setMinutes` makes them wrap.
- `config.dfy` (module `Config`): the settings record, `loadSettings`
  (truthiness default for the theme, `Number.isFinite` defaults for the
  numbers), the record that `saveSettings` writes, and the object-spread
  merge `{ ...settings, ...next }`.
- `schedule.dfy` (module `Schedule`): the two candidate lists as values
  (`Bedtimes`, `WakeTimes`), with lemmas on their length, order, the
  formula for each element, the recommended flag, the spacing between
  candidates and the round trip between the two directions.
- `app.dfy` (module `App`): the `RimrodApp` class with its `mode`,
  `settings` and saved record. `calculateBedtimes` and `calculateWakeTimes`
  are `while` loops. Each loop copies the anchor into a new `Date`, moves
  the copy with `SetMinutes` and appends a candidate. Each loop is proved
  to build exactly the list of the matching specification function. The
  new dates are fresh and pairwise distinct. The anchor is never changed:
  neither method has a `modifies` clause.

The recommended flag is fixed at 5..6 cycles (`rimrod-app.js` lines 160
and 182); no setting moves it.

## Model

| member | source | states |
|---|---|---|
| Clock.Date.Copy | rimrod-app.js:153 | `new Date(d)` is a new object holding the same instant as `d` |
| Clock.Date.GetMinutes | rimrod-app.js:155 | the minute within the hour, in 0..59 |
| Clock.Date.SetMinutes | rimrod-app.js:155 | setting the minute field to `m` moves the instant by `m` minus the old minute field; values outside 0..59 carry into the hour and the day |
| Clock.MinutesOf | rimrod-app.js:225 | `getMinutes()` is in 0..59, and with `getHours()` it recomposes the minute of the day |
| Clock.HoursOf | rimrod-app.js:224 | `getHours()` is in 0..23 |
| Clock.ToDecimal | rimrod-app.js:224-225 | `toString()` of a non-negative integer is a non-empty string of digits whose decimal value is the number; it has one digit exactly below 10 and at most two below 100, and a positive number has no leading zero |
| Clock.PadStart | rimrod-app.js:224-225 | `padStart` gives length `max(width, len(s))`, ends with `s`, and fills the front with the pad character |
| Clock.Pad2 | rimrod-app.js:224-225 | a clock field below 100, converted to text and padded to 2 with '0', is its two positional digits |
| Clock.FormatTime | rimrod-app.js:223-227 | `formatTime` gives 5 characters `HH:MM`: digits, a colon at index 2, hours below 24, minutes below 60, and the text reads back as the instant's minute of the day |
| Clock.FormatTimeOfClock | rimrod-app.js:223-227 | an instant whose minute of the day is `hours * 60 + minutes` formats as the zero-padded digits of `hours` and `minutes` around a colon |
| Clock.FormatTimeSameText | rimrod-app.js:223-227 | two instants format identically if and only if they share the minute of the day |
| Clock.FormatTimeWholeDays | rimrod-app.js:223-227 | instants any whole number of days apart (1440 minutes per day) format identically |
| Config.LoadSettings | rimrod-app.js:13-21 | for every key, the saved value is kept when usable (a truthy theme, a finite number) and replaced by its default otherwise; the loaded theme is always truthy |
| Config.LoadNothing | rimrod-app.js:14-20 | with nothing saved, the settings are the defaults `system`, 15, 90, 10 |
| Config.Stored | rimrod-app.js:25 | the saved record holds the three numbers under their names, and the theme as `JSON.stringify` writes it: NaN and infinities read back as `null`, an `undefined` theme is left out |
| Config.LoadStored | rimrod-app.js:15-25 | loading the saved record gives the same settings back if and only if the theme is truthy and not infinite; any other theme comes back as "system" |
| Config.Merge | rimrod-app.js:24 | the keys the update carries take its values, and every other setting keeps its value |
| Schedule.BedtimesFrom | rimrod-app.js:152-162 | the bedtime list from `top` cycles has `max(top, 0)` entries, and entry `i` has `top - i` cycles |
| Schedule.WakeTimesUpTo | rimrod-app.js:174-184 | the wake-time list up to `top` cycles has `max(top, 0)` entries, and entry `i` has `i + 1` cycles |
| Schedule.BedtimesFromAt | rimrod-app.js:152-161 | entry `i` of the bedtime list is the anchor minus `(top - i) * cycleLength + sleepLatency` minutes, with `top - i` cycles, and is recommended exactly for 5 or 6 cycles |
| Schedule.WakeTimesUpToAt | rimrod-app.js:174-183 | entry `i` of the wake-time list is the anchor plus `(i + 1) * cycleLength + sleepLatency` minutes, with `i + 1` cycles |
| Schedule.BedtimesShape | rimrod-app.js:145-165 | `calculateBedtimes` gives `max(numOptions, 0)` candidates with cycles from `numOptions` down to 1; each time is the wake-up time minus `cycles * cycleLength + sleepLatency`; each is recommended if and only if `5 <= cycles <= 6` |
| Schedule.WakeTimesShape | rimrod-app.js:167-187 | `calculateWakeTimes` gives `max(numOptions, 0)` candidates with cycles from 1 up to `numOptions`; each time is the bedtime plus `cycles * cycleLength + sleepLatency`; each is recommended if and only if `5 <= cycles <= 6` |
| Schedule.MirroredCycles | rimrod-app.js:152-182 | the two directions list the same cycle counts and recommended flags in opposite orders |
| Schedule.CandidateSpacing | rimrod-app.js:152-177 | in both lists, entries `j - i` places apart are exactly `(j - i) * cycleLength` minutes apart |
| Schedule.StrictlyIncreasing | rimrod-app.js:152-177 | with a positive cycle length, times strictly increase along both lists: the earliest bedtime and the earliest wake time come first |
| Schedule.BedtimeThenWakeTime | rimrod-app.js:153-177 | feeding the bedtime for `c` cycles into the wake-time calculation gives, at `c` cycles, exactly the original wake-up time |
| Schedule.WakeTimeThenBedtime | rimrod-app.js:153-177 | feeding the wake time for `c` cycles into the bedtime calculation gives, at `c` cycles, exactly the original bedtime |
| Schedule.CountRecommendedAppend | rimrod-app.js:157-161 | the number of recommended candidates adds up over concatenated lists |
| Schedule.BedtimesFromCount | rimrod-app.js:152-162 | the bedtime list from `top` cycles has 2 recommended entries when `top >= 6`, 1 when `top == 5`, and 0 otherwise |
| Schedule.WakeTimesUpToCount | rimrod-app.js:174-184 | the wake-time list up to `top` cycles has the same count of recommended entries |
| Schedule.RecommendedCount | rimrod-app.js:160-182 | for any anchor, cycle length and latency, both lists recommend 2 candidates from six options up, 1 at five and none below |
| Schedule.NoneRecommendedBelowFive | rimrod-app.js:160-182 | with fewer than five options, no candidate in either list is recommended |
| Schedule.WakeAtSevenThreeOptions | rimrod-app.js:145-165 | a 07:00 wake-up with 3 options, 90-minute cycles and 15 minutes of latency gives bedtimes 02:15, 03:45 and 05:15 (cycles 3, 2, 1), none recommended |
| Schedule.WakeAtSevenDefaults | rimrod-app.js:145-165 | with the defaults, a 07:00 wake-up gives 10 bedtimes; the recommended ones are at 21:45 (6 cycles) and 23:15 (5 cycles) on the evening before |
| App.RimrodApp.constructor | rimrod-app.js:5-11 | the app starts in wake mode, with the settings loaded from the saved record |
| App.RimrodApp.SaveSettings | rimrod-app.js:23-26 | the settings become the merge of the old settings and the update; the written record is `Stored` of the new settings; the mode is unchanged; reloading the record gives the settings in use, except that a theme that is falsy or becomes `null` in JSON reloads as "system" |
| App.RimrodApp.SwitchMode | rimrod-app.js:106-107 | the mode becomes the requested one, and the settings and the record are unchanged |
| App.RimrodApp.CalculateBedtimes | rimrod-app.js:145-165 | the loop builds exactly `Bedtimes(anchor, settings)`; every candidate holds its own fresh `Date`, and the anchor is not modified |
| App.RimrodApp.CalculateWakeTimes | rimrod-app.js:167-187 | the loop builds exactly `WakeTimes(anchor, settings)`; every candidate holds its own fresh `Date`, and the anchor is not modified |
| App.RimrodApp.Calculate | rimrod-app.js:135-140 | wake mode gives the bedtime list for the anchor, and sleep mode gives the wake-time list; the anchor is unchanged |

## Left out

- DOM and event wiring: `init`, the label and button updates of
  `switchMode`, `displayResults`, `applyTheme`, the event listeners,
  `scrollIntoView` and `setTimeout`. These are rendering only. Only the
  `mode` assignment of `switchMode` is modelled.
- Storage I/O: `localStorage.getItem`/`setItem` and the JSON text. The
  saved record is modelled as the parsed key/value map. Writing then
  reading it back is modelled for the values a theme can hold (NaN and
  infinities become `null`, `undefined` is dropped); strings and integers
  come back unchanged. An object theme is kept only as "some object".
- The constructor throws when the saved text is not valid JSON or is the
  text `null` (`rimrod-app.js` lines 14-16): `JSON.parse` fails, or
  `saved.theme` is read on `null`. The model takes an already parsed
  record, so it does not cover that failure.
- Input handling in `calculate` is not modelled: reading the text field,
  the early return on an empty field, `split(':').map(Number)`, and
  `new Date()` with `setHours`. The anchor is passed in as a `Date`.
  `parseInt` in `saveAndRecalc` is not modelled either: the update carries
  integers, not NaN.
- JavaScript numbers are modelled as unbounded integers. Fractional
  values, float rounding of very large products, and the `Date` range
  limit are not modelled.
- Time zones and daylight-saving transitions are not modelled. An instant
  is a count of local wall-clock minutes, so `setMinutes` is exact
  minute arithmetic.
- French labels and badge text are not modelled: they are presentation.
- Clock.Date.SetMinutes: stated as a shift of the instant; it does not
  model the day-length changes of daylight-saving transitions.
