# AutoClickApp control panel, modelled in Dafny

This project models the browser-side control panel of an auto-clicker (the
`AutoClickApp` class of `script.js`). It covers the logic the panel runs
besides drawing the page:

- the interval field, read in its unit (ms, µs or ns), and the timing advisory;
- the ordered DelayClick list of `(delay, count)` steps, with the defaults it
  applies to unreadable rows;
- the click counter with its clicks-per-second (CPS) sampler and its
  inactivity watchdog;
- the session lifecycle: start, stop, forced stop, configuration changes and
  keyboard shortcuts;
- the stop request, the saved configuration and loading it back;
- the manual-trigger walk over the step list.

Layout, one module per file:

- `text.dfy` (`Text`): the JavaScript string behaviour the panel relies on.
  This is `String.prototype.trim`, `parseInt` on decimal text, the
  `parseInt(x) || d` default idiom, and the decimal text of an integer.
- `interval.dfy` (`Interval`): `getActualInterval` and the
  `warnAboutTimingLimitations` classifier, as functions.
- `delay_clicks.dfy` (`DelayClicks`): steps and rows, reading a row, the total
  click count, and the schedule of the manual-trigger walk.
- `counter.dfy` (`Counter`): the counter, CPS and watchdog state as a value
  (`Tracker`), with one function per transition and the `Consistent`
  invariant.
- `session.dfy` (`Session`): the start and stop requests and the saved
  configuration, as records.
- `app.dfy` (`App`): the `AutoClickApp` class. Its fields are the form, the
  list, the counter state and the session flags. Each of its methods is proved
  against the functions above.

Timers are data. `cpsSamplerDue` is the next tick of the 1 s CPS interval
(None once it is cleared). `inactivityDeadline` is when the pending 5 s
timeout fires. A timer firing is an explicit method (`FireCpsSampler`,
`FireInactivityTimer`) that takes the time `now` and requires that the timer
is due. The clock is the `now` parameter. The backend's answer to a request is
the `backendOk` parameter. Periods and rates are `real`s (exact rationals).

## Model

| member | source | states |
|---|---|---|
| Text.LeadingWhitespace | script.js:147 | the count of leading whitespace never exceeds the length, and the character after it is not whitespace |
| Text.LeadingWhitespaceIsWhitespace | script.js:147 | every character counted as leading whitespace is whitespace |
| Text.TrailingWhitespace | script.js:147 | the count of trailing whitespace never exceeds the length, and the character before it is not whitespace |
| Text.TrailingWhitespaceIsWhitespace | script.js:147 | every character counted as trailing whitespace is whitespace |
| Text.Trim | script.js:147-153 | trim never lengthens, a non-empty result starts and ends with non-whitespace, and text that starts with non-whitespace keeps its first character (where the result ends is stated by `TrimIsInfix`) |
| Text.TrimIsInfix | script.js:153 | the trimmed title is the stretch of the text that starts at its first non-whitespace character, and everything after that stretch is whitespace |
| Text.TrimEmptyIffBlank | script.js:147 | trimming leaves nothing exactly when the title is whitespace only (the blank-title refusal) |
| Text.TrimIdempotent | script.js:153 | trimming twice is trimming once |
| Text.DigitRun | script.js:138-139 | the digit run parseInt reads is all digits and is maximal |
| Text.ParseDigits | script.js:138-139 | a number is read after the sign exactly when a digit follows it |
| Text.ParseInt | script.js:138-139 | text that starts with a digit reads as the value of its leading digit run (the same `parseInt` is used at script.js:155, 227 and 281) |
| Text.ParseIntSigned | script.js:138-139 | one sign is read before the digits: "-" negates the digit run that follows, "+" keeps it, and a sign with no digit after it is NaN, so a fractional entry such as "-5.5" reads as -5; text starting with any other character than whitespace, a sign or a digit (".5") is NaN |
| Text.ParseIntSkipsWhitespace | script.js:138-139 | leading whitespace is skipped: the text reads as it does with that whitespace removed |
| Text.ParseIntNeedsDigit | script.js:138-139 | text without any decimal digit parses as NaN |
| Text.ParseIntOr | script.js:138-139 | the or-default idiom (`parseInt(x)` or `d`) is the parsed value when that is neither NaN nor 0, and `d` when it is NaN or 0; with `d != 0` it is never 0 |
| Text.NatToString | script.js:95-97 | the decimal text of a number is non-empty, all digits, and has no leading zero |
| Text.IntToString | script.js:95-97 | an integer's text starts with '-' exactly when it is negative |
| Text.NatToStringValue | script.js:95-97 | the digits of a number's text have that number as their value |
| Text.ParseIntRoundTrip | script.js:95-97 | parseInt reads back the decimal text an input was rendered with: every integer's decimal text parses as that integer |
| Interval.Resolve | script.js:284-289 | MS passes the entry through; MC and NN scale by 1000 and 1000000, are never below 0.001 and 0.000001, equal the scaled value exactly when the entry is at least 1, and are exactly 0.001 and 0.000001 for an entry below 1 |
| Interval.GetActualInterval | script.js:280-294 | the period is never 0 and is positive in MC and NN; an empty, unparseable or zero entry gives 100 in the unit (100 ms, 0.1 ms, 0.0001 ms); any other entry is resolved as parsed |
| Interval.ResolveMonotonic | script.js:284-289 | for a fixed unit a larger entry never gives a shorter period |
| Interval.MicrosecondsAsNanoseconds | script.js:284-289 | x µs and 1000·x ns give the same period for every x ≥ 1 |
| Interval.TimingWarningFor | script.js:229-236 | an advisory is shown exactly when the resolved period is below 4 ms (MS) or 1 ms (MC, NN), and its kind names the unit in use |
| Interval.WarnAboutTimingLimitations | script.js:226-237 | an advisory is shown exactly when getActualInterval's period for the same text is below the unit's threshold, and it is the nanosecond, 1 ms or 4 ms advisory for the NN, MC and MS unit |
| DelayClicks.ParseRow | script.js:138-140 | a row's count is never 0; an unparseable delay is 0; an unparseable or zero count is 1; a parsed delay is kept, and so is a parsed count other than 0 |
| DelayClicks.RowRoundTrip | script.js:95-98 | a row rendered for (delay, count) reads back as the same step, except that a count of 0 reads back as 1 |
| DelayClicks.DelayClicksOf | script.js:133-144 | the list of steps has one step per row |
| DelayClicks.DelayClicksOfRows | script.js:133-144 | step i is read from row i, in list order, and has a non-zero count |
| DelayClicks.RowsOf | script.js:710-712 | rendering a list of steps gives one row per step |
| DelayClicks.RowsOfSteps | script.js:710-712 | row i of the rendering is the row of step i |
| DelayClicks.RowsReadBack | script.js:710-712 | rendering steps and reading the rows back gives the same steps in the same order, a count of 0 becoming 1 |
| DelayClicks.TotalClicksAppend | script.js:256 | the total click count is additive over a split of the list |
| DelayClicks.TotalClicksAtLeastLength | script.js:256 | when every count is at least 1, the total is at least the number of steps |
| DelayClicks.TimerDelay | script.js:268-273 | the timer waits less than 2^31 ms; a delay in [0, 2^31) is waited as is, a negative one down to -2^31 as 0, and any other is waited modulo 2^32 or as 0 (setTimeout's 32-bit conversion) |
| DelayClicks.WaitedMonotonic | script.js:264-273 | a longer prefix of the walk has waited at least as long |
| DelayClicks.Schedule | script.js:260-277 | the walk has one visit per step |
| DelayClicks.ScheduleVisits | script.js:260-277 | visit i is step i, with its delay and count, reached after the timers of steps 0..i, each waiting its `TimerDelay` |
| DelayClicks.ScheduleSpacing | script.js:268-273 | each visit comes exactly its own step's `TimerDelay` after the previous one |
| DelayClicks.ScheduleOrdered | script.js:260-277 | a later visit is never earlier in time |
| Counter.Incremented | script.js:296-314 | the counter rises by exactly 1, the last click is `now`, and the watchdog is re-armed to `now + 5000`; tracking starts (window at `now`, rate 0, sampler on) only when the counter was 0, otherwise the window, rate and sampler are kept; it preserves `Consistent`, and the sampler starts exactly when none was running |
| Counter.Cleared | script.js:354-360 | after a reset the counter is 0, no sampler or watchdog runs, the window and last click are forgotten and the rate is 0 (`Idle`, which is `Consistent`) |
| Counter.Rate | script.js:396-397 | the rate times the elapsed seconds is the click count, and it is positive when both are |
| Counter.CpsUpdated | script.js:385-402 | the three cases: rate 0 outside a burst; full reset after 5000 ms without a click; otherwise only the rate changes, to count / elapsed seconds |
| Counter.Sampled | script.js:366-370 | a tick keeps the counter or resets everything; it preserves `Consistent`; with a recent click the rate becomes positive and the next tick is one period later |
| Counter.ForceStopped | script.js:654-669 | only the last click is forgotten: counter, window, rate, sampler and watchdog are kept, and `Consistent` is preserved |
| Counter.Loaded | script.js:694-705 | the loaded counter is the saved one with no last click; a positive one starts tracking and the watchdog at load time; a non-negative one gives a `Consistent` state; a positive one starts the rate at 0 with the sampler due one period after load |
| Counter.ClicksCount | script.js:296-314 | N clicks raise the counter by N and preserve `Consistent`; the watchdog follows the last click; a burst's window opens at its first click and is never reopened |
| Counter.QuietPeriodResets | script.js:421-446 | after a click the watchdog is due exactly 5000 ms later; from then on a sampler tick resets everything, before then it keeps the count |
| Session.StartPayload | script.js:152-158 | the start request's title is the trimmed title field, non-empty and no longer than the field; its interval is the parsed entry or 100, never 0; mode, unit and steps are the form's |
| Session.StartPayloadTitleTrimmed | script.js:153 | the title sent is already trimmed |
| Session.StopPayload | script.js:634-640 | the stop request is one step (0, 0) with total 0, interval 1 and unit MS; its title is the trimmed title, or "dummy" when that is empty, and is never blank |
| Session.LoadedForm | script.js:690-693 | the title is kept; a saved mode and unit are kept, a missing mode is KEY and a missing unit MS; a saved interval text is kept, an empty one becomes "100", which reads as the same period the empty text did |
| Session.LoadedRowsReadBack | script.js:708-715 | the loaded list is never empty; its steps read back as the saved ones in order (a count of 0 as 1), or as the initial step (0, 10) when none were saved |
| Session.SaveLoadRoundTrip | script.js:671-715 | saving and then loading gives back the same list of steps |
| Session.SaveLoadForm | script.js:671-693 | saving and then loading gives back the same title, mode and unit, an interval with the same period, and the same counter |
| App.AutoClickApp.constructor | script.js:2-32 | start-up ends idle, not loading and disconnected, with at least one row and the detected title; the rest of the form, the list and the counter are the loaded ones, or the page's form with the initial step and an idle tracker |
| App.AutoClickApp.LoadStartup | script.js:16-22 | from the page's form and an idle tracker: the loaded form, list and counter, or the page's form with the initial step; at least one row; disconnected |
| App.AutoClickApp.FinishStartup | script.js:23-26 | start-up ends with the detected title, inactive and no longer loading |
| App.AutoClickApp.DetectActiveWindow | script.js:476-489 | the title becomes the document title followed by " - Brave", nothing else in the form changes, and the configuration is saved |
| App.DetectedTitleNotBlank | script.js:483-486 | a detected title is never blank once trimmed, so a start is not refused for its title |
| App.AutoClickApp.LoadConfiguration | script.js:684-724 | the form and the list are the loaded ones, and the tracker is the saved counter loaded onto the old one |
| App.AutoClickApp.LoadCounter | script.js:694-705 | the saved counter is set, and tracking and the watchdog start only for a positive one |
| App.AutoClickApp.LoadDelayClicks | script.js:708-715 | the cleared list gets one row per saved step, in order, or the initial row |
| App.AutoClickApp.GetDelayClicksData | script.js:133-144 | the loop yields the steps of the rows in order, one per row, none with a zero count |
| App.AutoClickApp.AddDelayClick | script.js:91-125 | the row for (delay, count) is appended and the configuration saved |
| App.AutoClickApp.AddDelayClickButton | script.js:77 | the add button appends the row (0, 1), which reads back as the step (0, 1) |
| App.AutoClickApp.AddInitialDelayClick | script.js:127-131 | only an empty list gets the step (0, 10) |
| App.AutoClickApp.RemoveDelayClick | script.js:107-116 | deletion is refused exactly when one row is left, so the list never becomes empty; otherwise the row goes and the change is handled: an active session gets the stop request, ends inactive and disconnected with only the last click forgotten; an idle or loading one keeps its flags, status and counter; the new list is saved |
| App.AutoClickApp.EditRow | script.js:118-121 | an edited row triggers the change handling: the new list is saved; an active session gets the stop request and ends inactive and disconnected with only the last click forgotten; an idle or loading one keeps its flags, status and counter |
| App.AutoClickApp.ChangeForm | script.js:82-85 | a form change is saved; an active session is stopped with the stop request for the new form and only its last click forgotten; an idle or loading one keeps its flags, status and counter |
| App.AutoClickApp.SaveConfiguration | script.js:671-682 | the snapshot holds the form, the steps of the rows and the counter |
| App.AutoClickApp.SimulateManualTrigger | script.js:252-278 | the total is the sum of the step counts, and the loop's trace is the schedule of the walk from `now`; the counter is not touched |
| App.AutoClickApp.StartCpsTracking | script.js:362-371 | the window opens now, the rate is 0 and the sampler is due one period later |
| App.AutoClickApp.StopCpsTracking | script.js:373-383 | sampler and watchdog are cleared, window, rate and last click forgotten, and the counter is kept |
| App.AutoClickApp.ResetInactivityTimeout | script.js:421-432 | any pending watchdog is replaced by one due 5000 ms from now |
| App.AutoClickApp.ClearInactivityTimeout | script.js:448-453 | no watchdog is pending |
| App.AutoClickApp.IncrementClickCounter | script.js:296-314 | the tracker makes the `Incremented` transition |
| App.AutoClickApp.ExecuteDirectClick | script.js:455-474 | the direct-click button counts exactly one click |
| App.AutoClickApp.ResetCounter | script.js:354-360 | the tracker is reset to `Idle` |
| App.AutoClickApp.HandleInactivity | script.js:434-446 | the tracker is reset to `Idle` |
| App.AutoClickApp.CalculateAndUpdateCps | script.js:385-402 | the tracker makes the `CpsUpdated` transition |
| App.AutoClickApp.FireCpsSampler | script.js:368-370 | a due tick schedules the next one and updates the rate (`Sampled`) |
| App.AutoClickApp.FireInactivityTimer | script.js:428-431 | a due watchdog resets the tracker to `Idle` |
| App.AutoClickApp.Destroy | script.js:727-735 | page unload stops tracking and the watchdog and keeps the counter |
| App.AutoClickApp.StartAutoClick | script.js:146-206 | a blank trimmed title is refused with no change; otherwise the start request is sent; success makes the session active and connected (with the advisory in AUTO mode), failure sets the error status and leaves the active flag; the counter is never touched |
| App.AutoClickApp.ForceStop | script.js:654-669 | the session ends inactive and disconnected; only the last click is forgotten |
| App.AutoClickApp.StopAutoClick | script.js:208-217 | the stop request is sent, then forceStop, so the session ends inactive and disconnected whatever the backend does |
| App.AutoClickApp.OnConfigurationChange | script.js:595-618 | while loading, only save; an active session is stopped (stop request, then forceStop) and then saved; an idle one is only saved |
| App.AutoClickApp.HandleKeyboardShortcuts | script.js:563-593 | keys typed in a field and F3 change nothing; F1 starts an inactive session with startAutoClick's outcome (refused with the status kept exactly when the title is blank; otherwise the start request, accepted as the backend answers, with the timing advisory only for an accepted AUTO session; active and connected exactly when accepted, error status when the backend fails) or runs the manual trigger of an active KEY session; F2 stops an active session and leaves an inactive one as it is |

## Left out

- DOM work is not modelled: rendering, status text, button states, toasts, animations, `initializeElements`, `setInitialButtonStates`, `showRestartRequired`, `updateStatus`'s text, the counter and CPS displays and their formatting. Only the status value is kept.
- The `fetch` requests are replaced by the `backendOk` parameter. A stop request's outcome is ignored, as the source does.
- `startAutoClick` is async and F1 does not await it. The model runs each handler to completion, one at a time, with no interleaving.
- `localStorage` and `JSON.parse` are not modelled. A stored configuration arrives already parsed, as `Option<SavedConfig>`; None covers both no entry and an entry that fails to parse (both end with the initial step). Falsy fields are represented as None or the empty string, and a missing counter as 0.
- The auto-save interval (script.js:28-31) is not modelled. `detectActiveWindow` takes the page's document title as a parameter; its button state and toast are left out with the rest of the DOM work.
- `trackTimingPrecision` is never called. `usePrecisionTiming` and `simulateClickCounting` only log. `simulateDelayClickExecution` logs and then calls its completion callback at once, which advances the walk; the model's walk takes that step directly after each timer.
- Timer scheduling is modelled as due times advanced by explicit `Fire…` methods. There is no event loop.
- Timers: the 4 ms clamp browsers apply to nested timers is not modelled. `TimerDelay` models the delay's conversion to a signed 32-bit integer and the treatment of a negative result as 0.
- Counter.CanSample: the rate is only sampled after the window opened. At elapsed time 0, JavaScript would store Infinity.
- Timestamps of 0 are not modelled. JavaScript treats a 0 timestamp as falsy; the model treats every recorded time as set, since `Date.now()` is never 0.
- `startCpsTracking` called while a sampler already runs would leak an interval in the source. The model keeps one due time. Under `Consistent` this call does not happen.
- Text.ParseInt reads decimal text only: no `0x` prefix and no radix. NaN is None. Numbers are unbounded, with no IEEE rounding of large values. Likewise `IntToString` is plain decimal: JavaScript writes numbers of magnitude 1e21 or more in exponent form ("1e+21", which parseInt reads as 1), so `ParseIntRoundTrip` holds in JavaScript only below that magnitude.
- Interval.GetActualInterval returns an exact rational, not an IEEE double.
- Counter.Rate likewise returns an exact rational, not an IEEE double.
- Counter.Loaded: a negative saved counter is loaded as is (`config.clickCounter || 0` keeps it). The resulting state is not `Consistent`; the contract only claims consistency for a non-negative counter.
- The mode select is assumed to hold one of KEY, MOUSE, AUTO, MANUAL, and the unit select one of MS, MC, NN.
- App.AutoClickApp.constructor: the page's list is assumed empty before loading.
- App.AutoClickApp.SimulateManualTrigger: the walk in script.js:252-278 never checks whether the session is still active, so the model walks every step.
- Interval.GetActualInterval: a negative millisecond entry passes through unclamped, as in the code.
