# Fish tank screen: verified model of its deterministic logic

The tank screen of the fish-tank client (`src/App.tsx`) shows telemetry read
from the aquarium controller and two local reminders. Three pieces of it are
plain logic, and this project models them in Dafny and proves their
properties:

- **Water-level calibration** (`water_level.dfy`, module `WaterLevel`). The
  distance from the sensor to the water surface, in cm, becomes a fill
  percentage. It is 100 at 5 cm or less and 0 at 17 cm or more. In between it
  is `(17 − d) / 12 × 100`. The model is over `real` and returns the number
  that the screen prints before the `%` sign.
- **Countdown formatting** (`time_format.dfy`, module `TimeFormat`). A number
  of seconds is shown as `M:SS`. `M` is the floor of the seconds divided by
  60, written in plain decimal. `SS` is the remainder by 60, padded with a
  leading `0` when it is a single digit. The model renders integers as
  decimal digit strings. A parser for the same layout is the partner of
  the formatter, and a round-trip lemma connects the two.
- **Reminder ticks** (`reminders.dfy`, module `Reminders`). There are two
  countdowns: feeding at 1800 s and water change at 1140 s. Each has a
  "fired" flag that starts false. The screen's once-a-second callback updates
  all four values in place, so the model is a class `ReminderScheduler` with
  those four fields and a `Tick()` method. Each tick takes one second off a
  positive counter. A counter that is already 0 stays at 0 and sets its flag.
  The pure functions `Step` (one tick of one record) and `Run` (n ticks)
  specify `Tick`. A ghost tick count ties the object to `Run` from the start
  constants.

A natural reading, that a reminder fires when its counter reaches 0, is not
what the code does, and the model follows the code. The code tests whether
the counter was already 0 before the tick. So a reminder started at V
shows `0:00` after tick V and fires only on tick V + 1 (`FirstFiresAfterZero`,
`ReminderScheduler.ReachableState`).

The counters are JavaScript numbers, so they are modelled as `int`. That they
never go negative is proved (`NeverNegative`, `ReachableState`), not assumed
from a type. Starting from a negative value, `Step` would count down forever
and never fire, as the source does. That case is unreachable from the
initial constants.

## Model

| member | source | states |
|---|---|---|
| WaterLevel.WaterLevelPercent | src/App.tsx:34-42 | the fill percentage for any distance lies in [0, 100] |
| WaterLevel.FullAtOrBelowFive | src/App.tsx:35-36 | every distance ≤ 5 gives exactly 100 (inclusive cutoff) |
| WaterLevel.EmptyAtOrAboveSeventeen | src/App.tsx:37-38 | every distance ≥ 17 gives exactly 0 (inclusive cutoff) |
| WaterLevel.InBandIsLinear | src/App.tsx:39-41 | for 5 < d < 17 the level is (17 − d) / 12 × 100 and lies strictly between 0 and 100 |
| WaterLevel.IsClampedLine | src/App.tsx:34-42 | the piecewise map equals the calibration line clamped to [0, 100] everywhere, so the cutoffs join the line without a jump |
| WaterLevel.HalfAtEleven | src/App.tsx:39-41 | a distance of 11 cm reads as 50 |
| WaterLevel.NonIncreasing | src/App.tsx:34-42 | a larger distance never gives a higher level, over the whole real line |
| WaterLevel.StrictlyDecreasingInBand | src/App.tsx:39-41 | on [5, 17] a larger distance gives a strictly lower level, so distinct distances there show distinct levels |
| WaterLevel.EveryLevelReached | src/App.tsx:34-42 | every level in [0, 100] is shown for the distance 17 − level × 12 / 100, which lies in [5, 17] |
| WaterLevel.Onto | src/App.tsx:34-42 | every level in [0, 100] is the reading of some distance |
| TimeFormat.Decimal | src/App.tsx:54 | an integer renders as a non-empty digit string with no leading zero, one character exactly for values below 10 |
| TimeFormat.DecimalRoundTrip | src/App.tsx:54 | reading the decimal rendering back gives the original number |
| TimeFormat.SplitTime | src/App.tsx:52-53 | minutes × 60 + seconds equals the input, and seconds < 60 |
| TimeFormat.SecondsField | src/App.tsx:54 | the padded seconds field is at least two characters, all digits; SecondsFieldTwoDigits pins it to exactly the tens and units digit below 100 |
| TimeFormat.SecondsFieldTwoDigits | src/App.tsx:54 | the padded seconds field of any value below 100 is exactly its tens digit followed by its units digit |
| TimeFormat.FormatTime | src/App.tsx:51-55 | the display is at least four characters long (`M:SS`) |
| TimeFormat.FormatTimeLayout | src/App.tsx:51-55 | the display is the decimal of t / 60, a colon, then the two digits of t % 60 |
| TimeFormat.FormatTimeRoundTrip | src/App.tsx:51-55 | parsing the `M:SS` display gives back the original number of seconds |
| TimeFormat.FormatTimeExamples | src/App.tsx:51-55 | 0 shows as `0:00`, 90 as `1:30` and 3599 as `59:59` |
| Reminders.Step | src/App.tsx:58-64 | one tick of one record never adds time and never clears the fired flag; StepPositive and StepZero give its value in each branch |
| Reminders.Run | src/App.tsx:57-73 | n ticks of one record never add time; RunFromStart gives its closed form from the start constants |
| Reminders.StepPositive | src/App.tsx:58-64 | a tick on a positive counter removes exactly one second and leaves the fired flag unchanged |
| Reminders.StepZero | src/App.tsx:59-61 | a tick on a zero counter keeps it at 0 and sets the fired flag |
| Reminders.StepKeepsFired | src/App.tsx:57-73 | no tick clears a fired flag |
| Reminders.StepBounded | src/App.tsx:57-73 | from a non-negative counter a tick stays non-negative and never adds time |
| Reminders.FiredStaysFired | src/App.tsx:57-73 | once fired, a record stays fired after any number of ticks |
| Reminders.NeverNegative | src/App.tsx:57-73 | a counter that starts non-negative stays between 0 and its start after any number of ticks |
| Reminders.RunFromStart | src/App.tsx:57-73 | from an unfired start V, after N ≤ V ticks the counter is V − N and unfired; after more ticks it is 0 and fired |
| Reminders.FirstFiresAfterZero | src/App.tsx:57-73 | after V ticks the counter is 0 but unfired; tick V + 1 fires it; the flag is set exactly after more than V ticks |
| Reminders.ReminderScheduler.constructor | src/App.tsx:8-11 | the screen starts with 1800 s to feeding, 1140 s to water change, and neither reminder fired |
| Reminders.ReminderScheduler.Tick | src/App.tsx:57-73 | each record's new value is one Step of its own old value only, and the object stays consistent with the tick count |
| Reminders.ReminderScheduler.ReachableState | src/App.tsx:57-73 | in every reachable state each counter is its start minus the ticks, floored at 0, and never negative; each reminder has fired exactly when more ticks than its start have run |

## Left out

- Fetching telemetry (`fetchData`, `handleRefresh`, src/App.tsx:22-32) is network I/O and JSON parsing with console logging. Storing the result only replaces the whole snapshot, so there is no logic to model.
- The once-a-second timer (`setInterval` / `clearInterval`, src/App.tsx:13-20) belongs to the JavaScript runtime. A tick is an explicit call to `Tick()`.
- Rendering is not modelled: JSX, `renderDataCard`, the video and image, the styles, and the choice between `Feed in: M:SS` and the reminder message.
- WaterLevel.WaterLevelPercent: returns the number, not the displayed string. JavaScript's float-to-string rendering of the percentage (src/App.tsx:40) and IEEE rounding of the division are not modelled; arithmetic is exact over `real`.
- WaterLevel.WaterLevelPercent: takes a real number, so inputs that are not numbers are outside the model. In JavaScript a missing `water_level` (`undefined`) fails both comparisons and shows `NaN%`. `null` compares as 0 and shows `100%`. Other non-numbers, such as a numeric string, are converted to numbers by the comparisons and the arithmetic.
- TimeFormat.FormatTime: takes a natural number. Negative or fractional second counts never reach it, because the counters stay non-negative integers (`ReachableState`).
- TimeFormat.Decimal: renders every natural number as plain digits. JavaScript writes integers of 10^21 and above in exponent form and is not exact above 2^53. The screen only shows minute values up to 30 and second values below 60, so those inputs never occur.
- The socket channel, command tokens, schedule messages and device-address changes are not part of this model: src/App.tsx has none of them.
