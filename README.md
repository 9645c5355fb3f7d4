# +Segura: the state logic of the screens

+Segura is a React Native prototype of a personal-safety app. Its screens simulate a wristband and an
emergency alert with local timers. The screens are mostly layout. This project models the small pieces
of logic they contain, and proves properties about them:

- **Alert countdown** (`AlertaScreen`, module `AlertCountdown`). A one-second interval counts
  `countdown` down from 30. When the countdown reaches the end, `alertSent` is set and the interval is
  cleared. The screen is the class `AlertScreen`. Its `Tick` method is proved against the step
  function `Step`, and lemmas give the state after any number of seconds.
- **Recording counter and `formatTime`** (`ModoProtecaoScreen`, modules `ProtectionMode` and
  `TimeFormat`). The counter starts at 0 and goes up by one each second. `formatTime` prints
  seconds as zero-padded `mm:ss`. It is proved to round-trip through a reader of such labels, and to
  have a fixed five-character shape below 100 minutes. The app has no such
  reader: `ParseTime` is part of the model only, as the inverse that the round trip is stated against.
- **Heart-rate simulation** (`MonitoramentoScreen`, module `DeviceMonitor`). Every five seconds the
  rate moves by a random offset and is clamped to 60..120. The random draw is a parameter in 0..9.
- **Colour lookups** (module `Palette`): the button gradients (`getColors`) and the history status
  colours (`getStatusColor`), both with their default cases.
- **Switches** (module `Preferences`): the three settings toggles and the escape-plan toggle.
- **Risk-zone legend** (module `RiskZones`): the per-level zone counts shown under the map.

The code has no phase enumeration for the alert. There is no cancelled or resolved state, and no
trigger or resolve operation. Cancelling an alert only navigates back to the monitoring screen
(App.js:815 and App.js:867). This model follows the code: the countdown's state is exactly the two hooks
`countdown` and `alertSent`, plus whether the interval is still set.

Each press of a switch runs `setX(!x)`. Each firing of an interval runs one state updater. The
model treats both as single sequential steps.

## Model

| member | source | states |
|---|---|---|
| `AlertCountdown.CountdownUpdate` | App.js:792-800 | above 1 the countdown drops by exactly one and nothing is sent; at 1 or below the result is 0 and the alert is marked sent; the result is never negative |
| `AlertCountdown.Step` | App.js:791-801 | one second keeps a reachable state reachable, never un-sends the alert, and does nothing once the interval is cleared |
| `AlertCountdown.Run` | App.js:791-801 | the state after k firings, k steps in a row; no contract of its own, its values are stated by `RunKeepsValid`, `CountingDown`, `SentFromThirtieth` and `RunFromStart` |
| `AlertCountdown.RunKeepsValid` | App.js:777-801 | from any reachable state, after any number of seconds the countdown stays in 0..30, the alert is sent exactly at 0, and the interval runs exactly while unsent |
| `AlertCountdown.CountingDown` | App.js:777-801 | after k < 30 seconds from mounting the countdown is 30 - k, nothing is sent and the interval still runs |
| `AlertCountdown.SentFromThirtieth` | App.js:793-797 | after 30 seconds, and every second after that, the countdown is 0, the alert is sent and the interval is cleared |
| `AlertCountdown.RunFromStart` | App.js:777-801 | after k seconds the countdown is max(0, 30 - k), and the alert is sent exactly when k >= 30 |
| `AlertCountdown.UpdateIdempotentAtZero` | App.js:793-797 | running the updater again on a finished countdown gives 0 and "sent" again |
| `AlertCountdown.AlertScreen.constructor` | App.js:777-778 | a mounted screen shows 30, unsent, with the interval set |
| `AlertCountdown.AlertScreen.Tick` | App.js:791-801 | one firing updates both hooks and the interval exactly as `Step` does |
| `AlertCountdown.AlertScreen.RunTicks` | App.js:791-801 | n firings in a row leave the state `Run(old state, n)` |
| `AlertCountdown.CountdownAfter` | App.js:777-801 | a fresh screen shows max(0, 30 - n) after n seconds, and is sent exactly when n >= 30 |
| `TimeFormat.ToDecimal` | App.js:982 | `toString` of a non-negative integer: at least one digit and all digits, no leading zero, one digit exactly below 10 and at most two below 100 |
| `TimeFormat.ToDecimalValue` | App.js:982 | the digits of `n.toString()` read back as `n` |
| `TimeFormat.PadStart` | App.js:982 | `padStart` with a one-character fill: the width is max(length, target), and the result is copies of the fill followed by the original string |
| `TimeFormat.Field` | App.js:982 | one field, `x.toString().padStart(2, '0')`; no contract of its own; `PaddedValue` states that it is all digits, reads back as x, is at least two wide and exactly two below 100 |
| `TimeFormat.FormatTime` | App.js:979-983 | `formatTime` itself; no contract of its own, its behaviour is stated by `FormatTimeFields`, `FormatTimeRoundTrip` and `FormatTimeShape` |
| `TimeFormat.FormatTimeFields` | App.js:979-983 | the label's last ':' is three characters from the end; the digits before it read as `s / 60`, and the two digits after it read as `s % 60`, which is below 60 |
| `TimeFormat.FormatTimeRoundTrip` | App.js:979-983 | reading the label `formatTime(s)` back gives `s`, for every `s >= 0` |
| `TimeFormat.FormatTimeShape` | App.js:979-983 | for `s < 6000` the label has 5 characters, ':' at index 2 and digits elsewhere |
| `ProtectionMode.RecordingScreen.constructor` | App.js:969 | the recording counter starts at 0 |
| `ProtectionMode.RecordingScreen.Tick` | App.js:972-974 | one firing adds exactly 1 |
| `ProtectionMode.RecordingScreen.RunTicks` | App.js:971-976 | n firings add exactly n |
| `ProtectionMode.RecordingScreen.Label` | App.js:998 | the shown label reads back as the current counter, and below 100 minutes it has 5 characters with ':' at index 2 |
| `ProtectionMode.ElapsedAfter` | App.js:968-976 | a fresh screen's counter after n seconds is n |
| `ProtectionMode.LabelAfter` | App.js:968-998 | the label shown after n seconds reads back as n, and has the `mm:ss` shape below 100 minutes |
| `DeviceMonitor.HeartRateStep` | App.js:219 | whatever the previous rate, the new rate is in 60..120 |
| `DeviceMonitor.StepIsNearestInBand` | App.js:219 | the new rate is the in-band value closest to `prev + d - 5`, and equals it when it is in the band |
| `DeviceMonitor.StepBoundedChange` | App.js:219 | from a rate in 60..120, one step changes it by at most 5 (between -5 and +4) |
| `DeviceMonitor.Readings` | App.js:214-223 | the shown rates begin at the start value, each later one is one step of the previous with its own draw, and all later ones are in the band |
| `DeviceMonitor.ReadingsStayInBand` | App.js:214-223 | from the initial 72, every shown rate is in 60..120 and consecutive rates differ by at most 5 |
| `Palette.GetColors` | App.js:97-104 | 'primary', 'emergency' and 'success' get their own gradients, each exactly for that name; every other name gets the secondary pair |
| `Palette.GetStatusColor` | App.js:700-707 | 'Resolvido', 'Verificado' and 'Monitorado' map to success, warning and secondary, each exactly for that status; every other status maps to white |
| `Preferences.Toggle` | App.js:627-651 | a press flips its own setting and leaves the other two as they were |
| `Preferences.ToggleTwice` | App.js:627-651 | pressing the same switch twice restores the settings |
| `Preferences.PressesParity` | App.js:597-651 | after any series of presses, a setting differs from its start exactly when its switch was pressed an odd number of times |
| `Preferences.PressesFromDefaults` | App.js:597-651 | from the defaults (on, off, on), notifications and location sharing are on exactly after an even number of presses of their switch, and the automatic alert exactly after an odd number |
| `Preferences.TogglePlan` | App.js:1081 | a press on the escape-plan button flips `planActive` |
| `Preferences.PlanButtonGradient` | App.js:1078-1082 | the escape-plan button is green when the plan is active and red when it is not |
| `Preferences.PlanPresses` | App.js:1029-1082 | the plan starts inactive with a red button; from either state a press swaps red and green, and a second press restores the state |
| `RiskZones.FilterByLevel` | App.js:490-494 | every kept zone has the given level and is in the input, every zone of that level is kept, and the result is no longer than the input |
| `RiskZones.FilterCounts` | App.js:490-494 | the filter keeps every copy of each zone of the level and drops every other zone, so the legend count is the number of zones at that level |
| `RiskZones.FilterKeepsOrder` | App.js:490-494 | filtering a concatenation filters each part in turn, so the kept zones stay in input order |
| `RiskZones.LegendCount` | App.js:490-494 | the number in the legend, the length of the filtered list; no contract of its own, its value is stated by `FilterCounts`, `LegendCountsDisjoint`, `LegendCountsCover` and `SampleLegend` |
| `RiskZones.LegendCountsDisjoint` | App.js:490-494 | the counts of two different levels add up to at most the number of zones |
| `RiskZones.LegendCountsCover` | App.js:490-494 | when every zone is rated 'Alto' or 'Médio', the two legend counts add up to the number of zones |
| `RiskZones.SampleLegend` | App.js:51-78 | the sample data has one high-risk and one moderate-risk zone |

## Left out

- Rendering, JSX layout, the style table and the button sizes: presentation only.
- The navigation stack and every `navigate`/`goBack` call. That includes cancelling an alert, which is
  only a navigation.
- Native and library calls: alert dialogs, vibration, sharing, maps, location and animations. Their
  behaviour is outside the app's code.
- The battery drain and the proximity distance: floating-point arithmetic driven by `Math.random`.
- The splash timeout, the 30-second proximity popup and the 5-second auto-send after the emergency
  button. The auto-send reads an out-of-date value of `emergencyPressed`, and its outcome depends on how
  timers and user events interleave.
- The random draw behind the heart-rate step: `Math.floor(Math.random() * 10)` is a parameter `d`
  restricted to 0..9.
- `TimeFormat.FormatTime` is defined on non-negative integers only. The only caller passes the
  recording counter, which starts at 0 and only grows. JavaScript's results for negative seconds
  (a negative floor and remainder) are not modelled.
- Number width: counters, seconds and rates are unbounded integers, while the app's numbers are
  JavaScript doubles. The two agree below 2^53, where `prev + 1` and `Math.floor(seconds / 60)` are
  exact and `toString` writes plain digits (exponent notation starts at 10^21). A once-per-second
  counter never leaves that range.
- The interval period (one second, five seconds) is not modelled. A tick is one firing of the interval.
- The static sample lists (emergency contacts, safety tips, alert history, plan steps) have no behaviour
  and are not modelled. The risk zones are modelled for their legend counts, without their polygons.
- `isRecording` on the protection-mode screen never changes, so it is not modelled.
