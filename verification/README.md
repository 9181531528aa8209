# SightCare timer model

A Dafny model of the Pomodoro timer inside SightCare's `ContentView`: a focus
("main") countdown and a break ("short") countdown, each driven by its own
once-per-second tick source. When focus expires the app raises an alert, if the
alarm sound is bundled, and starts the break. When the break expires, focus
restarts silently. The alert's OK button restarts the break. Stop clears both
running flags. The model also covers the "MM:SS" formatter, the two progress
ratios, the setting-composition helpers, and the controls that write the
settings: the large-mode wheel pickers and the small-mode sliders.

Modules:

- `Timer` (`timer.dfy`): the seven-field `State` record and one pure function per event. The events are the main tick, the short tick, Start, the alert's OK, Stop, the alert sound, the two wheel-driven setting updates and the two slider writes.
- `Phases` (`phases.dfy`): iterated deliveries of one tick source. It covers phase lengths, the full focus/break cycle and the freezing effect of Stop.
- `Progress` (`progress.dfy`): the progress rings as exact `(remaining, total)` fractions. It covers bounds, draining between switches and the reset at a switch.
- `Format` (`format.dfy`): `%02d:%02d` rendering and a parser that reads it back.
- `Pickers` (`pickers.dfy`): the four wheels and their change handlers, both as written and corrected (see Findings).
- `Machine` (`machine.dfy`): the whole view as an event machine, including the large-mode toggle and the small-mode sliders. Events are guarded by what the screen offers, with the alert modal: while it is presented only its OK can be tapped. The wheels are wired as written. It proves reachable-state invariants and shows where the two running flags stop being exclusive.

Where the code differs from what a Pomodoro timer is usually expected to do, the model follows the code:

- A phase of N seconds takes N + 1 ticks to switch. The switch happens on the tick after the counter reaches 0.
- Stop keeps both remaining counters. A later Start resets only the focus counter.
- `startMainTimer` and the setting handlers have no guard of their own. The screen only offers them while both phases are off and no alert is presented (`Machine.Enabled`).
- The focus setting is in minutes: 1..1439 from the wheels, 1..60 from the slider. The break setting is in seconds: 20..3599 from the wheels with the corrected initial selection, 10..60 from the slider. As written, the wheels can compose a break of 0 seconds (see Findings).
- The alert's OK does not resume a paused break. It restarts a full break while leaving the focus flag as it is. If OK is tapped after the break has expired and focus has restarted, both phases run at once (`Machine.LateDismissalRunsBoth`).

## Model

| member | source | states |
|---|---|---|
| Timer.MainTick | SightCare/ContentView.swift:186-197 | a main tick is a no-op while focus is off; with time left it takes off exactly one second and changes nothing else; at 0 it clears focus, starts a full break and raises the alert exactly when the sound is available |
| Timer.ShortTick | SightCare/ContentView.swift:198-208 | a short tick is a no-op while the break is off; with time left it takes off exactly one second; at 0 it restarts a full focus phase and leaves the alert flag untouched |
| Timer.PlayAlertSound | SightCare/ContentView.swift:237-246 | the alert flag is raised if and only if the sound resource exists; nothing else changes |
| Timer.StartMainTimer | SightCare/ContentView.swift:222-225 | focus runs with a full `mainSetting * 60` counter; the break flag and counter are untouched |
| Timer.StartShortTimer | SightCare/ContentView.swift:227-230 | the break runs with a full counter; the focus flag keeps its value |
| Timer.AlertOk | SightCare/ContentView.swift:209-211 | OK drops the alert and restarts a full break without touching focus or the settings |
| Timer.StopTimers | SightCare/ContentView.swift:232-235 | both flags are down and both counters keep their values |
| Timer.ComposeMainSetting | SightCare/ContentView.swift:214-216 | hours and minutes are recovered from the setting by division by 60; on the wheels' rows the setting is 1..1439 minutes |
| Timer.ComposeShortSetting | SightCare/ContentView.swift:218-220 | minutes and seconds are recovered from the setting; on the wheels' rows the setting is 20..3599 seconds |
| Timer.SlideMainSetting | SightCare/ContentView.swift:36-37 | the small-mode focus slider sets the focus setting to the slider's value in minutes; nothing else in the timer changes |
| Timer.SlideShortSetting | SightCare/ContentView.swift:44-45 | the small-mode break slider sets the break setting to the slider's value in seconds; nothing else in the timer changes |
| Timer.UpdateMainTimeSetting | SightCare/ContentView.swift:214-216 | only the focus setting changes, to the composed value |
| Timer.UpdateShortTimeSetting | SightCare/ContentView.swift:218-220 | only the break setting changes, to the composed value |
| Phases.MainCountdown | SightCare/ContentView.swift:186-189 | k main ticks with at least k seconds left take off exactly k seconds and change nothing else |
| Phases.ShortCountdown | SightCare/ContentView.swift:198-201 | k short ticks with at least k seconds left take off exactly k seconds and change nothing else |
| Phases.MainTicksWhileOff | SightCare/ContentView.swift:187 | any number of main ticks while focus is off change nothing |
| Phases.ShortTicksWhileOff | SightCare/ContentView.swift:199 | any number of short ticks while the break is off change nothing |
| Phases.StopFreezes | SightCare/ContentView.swift:232-235 | after Stop both flags are down, both counters are kept, and no later tick of either source changes anything |
| Phases.FocusPhaseLength | SightCare/ContentView.swift:186-195 | after Start, exactly `mainSetting * 60` main ticks leave focus on at 0; the next tick enters a full break, with the alert raised exactly when the sound is available |
| Phases.BreakPhaseLength | SightCare/ContentView.swift:198-206 | a break with k seconds left is still on at 0 after k short ticks; the next tick restarts a full focus phase |
| Phases.FullCycle | SightCare/ContentView.swift:186-208 | from idle, Start, then `mainSetting * 60 + 1` main ticks, then `shortSetting + 1` short ticks gives a freshly started focus phase again |
| Progress.BoundedIffInUnitInterval | SightCare/ContentView.swift:255-261 | with positive settings, each running phase's ring lies in [0, 1] exactly when its counter is within its phase total |
| Progress.TicksPreserveBounded | SightCare/ContentView.swift:186-208 | neither tick source takes a running counter past its phase total |
| Progress.MainTickProgress | SightCare/ContentView.swift:255-257 | a main tick inside focus keeps the ring's total and never makes the ring fuller; the switching tick starts a full break ring |
| Progress.ShortTickProgress | SightCare/ContentView.swift:259-261 | a short tick inside the break keeps the total and never makes the ring fuller; the switching tick starts a full focus ring |
| Progress.FocusRingDrains | SightCare/ContentView.swift:255-257 | any number of main ticks before the switch leave the focus ring no fuller, with the same total |
| Progress.BreakRingDrains | SightCare/ContentView.swift:259-261 | any number of short ticks before the switch leave the break ring no fuller, with the same total |
| Format.FormatTime | SightCare/ContentView.swift:248-252 | the text is digits, a colon, then exactly two digits; it is five characters long exactly when the counter is below 100 minutes, and a longer minutes field has no leading zero |
| Format.FormatTimeFields | SightCare/ContentView.swift:248-252 | the minutes field reads back as `seconds / 60` and is not capped; the seconds field has two digits and reads back as `seconds % 60`, which is at most 59 |
| Format.FormatTimeRoundTrip | SightCare/ContentView.swift:248-252 | splitting the text at the colon gives back the counter |
| Format.FormatTimeInjective | SightCare/ContentView.swift:248-252 | different counters are displayed differently |
| Format.ParseDecimalOfDecimal | SightCare/ContentView.swift:251 | the decimal digits of a number read back as that number |
| Format.ParseDecimalOfPad2 | SightCare/ContentView.swift:251 | the zero-padded two-digit field reads back as its number |
| Format.FormatTimeSamples | SightCare/ContentView.swift:248-252 | 125 s shows "02:05", 3661 s shows "61:01", 1200 s shows "20:00" and 6000 s shows "100:00" |
| Pickers.PickAsWritten | SightCare/ContentView.swift:62-112 | as written, a wheel change moves only that wheel; an hour turn leaves the timer untouched, while a changed minute wheel brings the focus setting in line with the wheels and a changed break wheel the break setting; a pick that does not move its wheel leaves the timer untouched, a focus wheel never touches the break setting, a break wheel never touches the focus setting, and no other field changes |
| Pickers.Pick | SightCare/ContentView.swift:52-112 | with the corrected wiring (the hour wheel recomputes the focus setting too), a wheel change moves only that wheel; the setting it feeds then matches the wheels; a pick that does not move its wheel leaves the timer untouched, a focus wheel never touches the break setting, a break wheel never touches the focus setting, and no other field changes |
| Pickers.PickAsWrittenDiffersOnlyOnHours | SightCare/ContentView.swift:62-64 | the wiring as written and the corrected wiring agree on every pick except an hour turn, where they differ in the focus setting alone |
| Pickers.PickKeepsInSync | SightCare/ContentView.swift:62-78 | with the corrected wiring, a setting that matches its wheels keeps matching them after every pick |
| Pickers.HoursPickAsWrittenDesyncs | SightCare/ContentView.swift:62-64 | as written, turning the hour wheel to a new hour leaves the focus setting out of step with the wheels |
| Pickers.ZeroBreakAsWritten | SightCare/ContentView.swift:20-23 | as written, from a fresh view the offered picks 1 then 0 on the break-minute wheel give a 0-second break |
| Pickers.PickAllKeepsRange | SightCare/ContentView.swift:52-112 | starting on offered rows, any sequence of offered picks keeps all wheels on offered rows and both settings in range |
| Pickers.PickKeepsRange | SightCare/ContentView.swift:52-112 | one offered pick keeps the wheels and both settings in range |
| Pickers.InitialInRange | SightCare/ContentView.swift:13-23 | the initial settings are in range; the corrected initial selection is on offered rows and the written one is not |
| Machine.StepPreservesInv | SightCare/ContentView.swift:34-235 | every event the screen offers (ticks, Start, Stop, OK, the mode toggle, the wheels as written and the sliders) keeps running counters within their totals, the focus setting in 1..1439 minutes, the break setting in 10..3599 seconds, the wheels on offered rows, and the alert up only while a phase runs |
| Machine.RunPreservesInv | SightCare/ContentView.swift:34-235 | the same holds along every run of offered events |
| Machine.ReachableRingsInUnitInterval | SightCare/ContentView.swift:255-261 | with the corrected initial wheel selection, in every view reachable from a fresh one the ring of each running phase lies in [0, 1] with a positive total |
| Machine.ReachableIdleHasNoAlert | SightCare/ContentView.swift:209-211 | in every view reachable from the initial timer state, whatever the wheels start on and in either mode, the alert is never up while both phases are off |
| Machine.FreshIdleHasNoAlert | SightCare/ContentView.swift:13-23 | in particular from the fresh view as written (selections all 0), no reachable idle view has the alert up |
| Machine.SettingsFrozenWhileRunning | SightCare/ContentView.swift:34-50 | while a phase runs, no offered event changes either setting, the wheels or the mode, and an event leaves both phases off exactly when it is Stop |
| Machine.SettingsFrozenUntilStop | SightCare/ContentView.swift:34-50 | from a running view, every offered run without Stop keeps a phase running and both settings, the wheels and the mode unchanged |
| Machine.ZeroBreakRingFrom | SightCare/ContentView.swift:218-220 | from any idle large-mode view without the alert whose break wheels both stand at 0, turning the break-minute wheel to 1 and back, Start and a whole focus phase is a run of offered events that ends in a running 0-second break with 0 seconds left and a 0 / 0 ring |
| Machine.ZeroBreakRingAsWritten | SightCare/ContentView.swift:21-23 | from a fresh view with the initial selections as written, that run is offered and ends in a break whose ring is not in [0, 1] |
| Machine.StepExclusion | SightCare/ContentView.swift:227-230 | from a view with at most one phase running, an offered event keeps that so if and only if it is not OK tapped while focus runs |
| Machine.LateDismissalRunsBoth | SightCare/ContentView.swift:209-211 | from any idle view without the alert, Start, a whole focus phase with sound, a whole break, then OK is a run of offered events that ends with both phases running |
| Machine.FreshLateDismissalRunsBoth | SightCare/ContentView.swift:13-23 | that run is available from the fresh view as written |
| Machine.TicksAfterStop | SightCare/ContentView.swift:232-235 | after Stop, any sequence of ticks from either source leaves the view unchanged |

## Left out

- The SwiftUI layout and colours are left out. They are presentation only. The `largeMode` toggle and the two sliders are kept only as the events they raise (`Machine.Enabled`).
- The idle label `String(Int(mainTimeSetting)) + ":00"` (line 121) and the choice of which phase's text and ring to draw (lines 135, 142) are trivial view glue.
- `Timer.publish` scheduling is left out. Each delivery is an abstract event, with the two sources kept separate. The order of the two deliveries within one real second is not modelled, so a run is any interleaving.
- `AVAudioPlayer` and the `Bundle` lookup are foreign I/O. They are reduced to the `soundAvailable` flag. A player that fails to start still raises the alert, so that path needs no parameter of its own.
- The `Alert` presentation itself is left out. Only the `showAlert` flag, its modality (`Machine.Enabled`) and the OK action are kept. The dismissal clearing the flag is modelled in `Timer.AlertOk`.
- The settings are `Double` and the progress ratios are `Double`/`CGFloat` in the source. The settings only ever hold whole numbers, so `Int(...)` truncation is the identity and they are `nat` here. The ratios are exact `(remaining, total)` pairs.
- Swift's 64-bit `Int` overflow is not modelled. No counter or setting exceeds 86340.
- `Format.FormatTime` is defined on non-negative counters only. The counters never go negative, so the truncating `/` and `%` on negative numbers never arise.
- The preview provider (lines 264-268) is left out. It is tooling only.
- Machine.ReachableRingsInUnitInterval: holds only from the corrected initial wheel selection (`Pickers.InitialSelection`). From the selection as written, `Machine.ZeroBreakRingAsWritten` reaches a break ring of 0 / 0.

## Findings

| source | as written | input that shows it | evidently intended | confidence | as-written member | corrected member |
|---|---|---|---|---|---|---|
| SightCare/ContentView.swift:62-64 | the hour wheel's change handler observes `selectedMinutes`, so turning the hour wheel alone does not recompute `mainTimeSetting` | select 0 h 30 m, then turn the hour wheel to 1: the wheels show 1 h 30 m but Start runs a 30-minute focus | the handler observes `selectedHours` | high; not executed | Pickers.HoursPickAsWrittenDesyncs | Pickers.PickKeepsInSync |
| SightCare/ContentView.swift:21-23 | the minute and break-second selections start at 0, which is not a row of their wheels (1..59 and 20..59) | in a fresh view, turn the break-minute wheel to 1 and back to 0: `shortTimeSetting` becomes 0, so the break lasts one tick and its ring is 0 / 0 | each wheel starts on the first row it offers, so the wheels never compose a break of 0 seconds | medium; not executed | Pickers.ZeroBreakAsWritten | Pickers.PickAllKeepsRange |

The `Machine` module wires the wheels as written (`Pickers.PickAsWritten`); its invariant starts from the corrected initial selection (`Pickers.InitialSelection`). `Machine.ZeroBreakRingAsWritten` replays the second row through the whole machine: the run it names is offered by the screen and ends in a 0 / 0 break ring.
