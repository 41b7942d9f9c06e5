# Hydrostatic pressure simulator: the simulation state machine

The simulator is a Qt window in which an object descends through a fluid at a
chosen rate. Each timer tick adds depth, recomputes the hydrostatic pressure
`101325 + density * 9.81 * depth`, classifies it against the chosen structure's
failure pressure (SAFE, CRITICAL, FAILED), repaints a safety bar, and stops the
descent for good once the pressure reaches the failure pressure. A reset
returns the object to the surface.

This project models the part of `MainWindow` that does this, with the widgets
taken away:

- `hydrostatics.dfy` (module `Hydrostatics`): the arithmetic as pure
  functions. It covers the pressure formula, the fluid-density and structure
  tables, the failure threshold of preset and custom mode, the three-band status,
  the clamped safety margin and its bar colour, and the timer-period bucket.
- `simulation.dfy` (module `Simulation`): the window's state as a `State`
  record. There is one transition function per slot: mode, fluid, structure
  and safety changes, rate change, start, reset and timer tick. `Run` applies
  a sequence of events. An invariant `Inv` holds in every reachable state.
  Lemmas cover sticky failure, reset, ticks and the threshold.
- `main_window.dfy` (module `Window`): class `MainWindow`. Its fields are the
  window's simulation fields, plus the widget state the slots read or write:
  the current values of the five input widgets, the timer period, the status
  label's tag, and the safety bar's value and colour. Its
  methods update the fields in place, as the slots do. Each method is proved
  to leave exactly the state that the matching `Simulation` function gives.
  The class invariant `Valid()` is `Inv` of that state.

All quantities are Dafny `real`s. The model follows the code as written:

- The constructor sets the threshold to 450000 and does not recompute it
  (mainwindow.cpp:11). The first widget selection is Simple in preset mode,
  whose table value is 750000. So until a structure, mode or safety change
  arrives, the simulation fails at 450000. Within the widgets' ranges the
  table gives 450000 only for the Human Diver: in preset mode (1.5 * 300000),
  or in custom mode with the slider at 15 (`TableValuesEqualToInitialMax`).
- A failing tick sets `hasFailed` but leaves `isRunning` true
  (mainwindow.cpp:269-274); only the timer stops (mainwindow.cpp:271).
- Reset does not refresh the status label (mainwindow.cpp:241-250). A label
  that showed FAILED keeps showing FAILED after a reset, until the next tick.
- Failure is checked with `>=` (mainwindow.cpp:269). The pseudo-code pane of
  the window says `pressure > maxPressure` (mainwindow.cpp:152); the model
  follows the code.
- Any change of structure, mode or safety slider recomputes the threshold, even
  a slider move in preset mode (mainwindow.cpp:208-213). In the window such a
  move is possible only before the first mode change: the slider is enabled at
  construction and the mode slot disables it in preset mode
  (mainwindow.cpp:37-38, 189).
- The example of one 100 ms tick at 2.0 m/s gives depth 0.2 m and pressure
  103287 Pa from the constructed state (`FirstTickExample`, `Window.FirstTick`).
  The threshold is then still 450000. It is 750000 only after a configuration
  change.

## Model

| member | source | states |
|---|---|---|
| Hydrostatics.Pressure | mainwindow.cpp:278-281 | pressure at the surface is atmospheric; at any depth below it in a positive-density fluid it is at least atmospheric |
| Hydrostatics.PressureIncreasesWithDepth | mainwindow.cpp:278-281 | for a fluid of positive density, greater depth gives strictly greater pressure |
| Hydrostatics.FluidDensity | mainwindow.cpp:193-198 | index 0 gives 1000 and index 1 gives 1025; every other index and only those give 1200; the density always lies in [1000, 1200] |
| Hydrostatics.BaseThreshold | mainwindow.cpp:288-291 | structures 0/1/2 give 500000/1000000/2000000; every other index and only those give 300000; the base lies in [300000, 2000000] |
| Hydrostatics.SafetyFactor | mainwindow.cpp:296 | slider positions 10..30 give factors in [1.0, 3.0] |
| Hydrostatics.MaxPressure | mainwindow.cpp:283-299 | in preset mode, or with the slider in its range, the threshold lies in [300000, 6000000] |
| Hydrostatics.PresetIgnoresSlider | mainwindow.cpp:293-294 | in preset mode the threshold is 1.5 times the base, whatever the slider says |
| Hydrostatics.CustomWithinFactorRange | mainwindow.cpp:295-298 | in custom mode with slider 10..30 the threshold lies in [base, 3*base] and grows with the slider |
| Hydrostatics.MaxPressureAboveAtmosphere | mainwindow.cpp:283-299 | every threshold the widgets can select is above atmospheric pressure |
| Hydrostatics.Classify | mainwindow.cpp:301-316 | SAFE iff pressure < 0.8*max; for max >= 0, CRITICAL iff 0.8*max <= pressure < max and FAILED iff pressure >= max |
| Hydrostatics.ClassifyBoundaries | mainwindow.cpp:304-315 | exactly 80% of the threshold is CRITICAL and exactly the threshold is FAILED |
| Hydrostatics.ClassifyMonotone | mainwindow.cpp:304-315 | higher pressure never gives a safer status |
| Hydrostatics.QMin | mainwindow.cpp:329 | reference definition of the toolkit's qMin used by the clamp: the first argument when it is smaller, otherwise the second |
| Hydrostatics.QMax | mainwindow.cpp:329 | reference definition of the toolkit's qMax used by the clamp: the second argument when the first is smaller, otherwise the first |
| Hydrostatics.SafetyMargin | mainwindow.cpp:328-329 | the clamped margin is always in [0, 100]; with max above atmosphere it is 100 at atmospheric pressure and 0 at or above the threshold |
| Hydrostatics.SafetyMarginAntitone | mainwindow.cpp:328-329 | with max above atmosphere, more pressure never gives a larger margin |
| Hydrostatics.SafetyMarginLinear | mainwindow.cpp:328-329 | between atmosphere and the threshold the clamp does nothing: the margin is 100*(max-p)/(max-atm) |
| Hydrostatics.BarColourFor | mainwindow.cpp:333-336 | green iff margin > 70, red iff margin <= 30, otherwise yellow; never the unstyled default |
| Hydrostatics.TimerInterval | mainwindow.cpp:234-236 | the period is one of 100, 50, 20 ms: 100 iff rate <= 2.0, 20 iff rate > 10.0 |
| Hydrostatics.TimerIntervalAntitone | mainwindow.cpp:234-236 | a higher rate never gets a longer period |
| Hydrostatics.StepLength | mainwindow.cpp:260-261 | the descent of one tick is non-negative, and positive for a positive rate and period |
| Hydrostatics.StepLengthBounds | mainwindow.cpp:231-261 | for every rate in [0.5, 50] one tick at that rate's period descends between 0.05 m and 1 m |
| Simulation.Initial | mainwindow.cpp:6-23 | reference value of the constructed state, which the constructor is proved equal to |
| Simulation.CalculatePressure | mainwindow.cpp:278-281 | reference transition for calculatePressure, which `Window.MainWindow.CalculatePressure` is proved equal to |
| Simulation.CalculateMaxPressure | mainwindow.cpp:283-299 | reference transition for calculateMaxPressure, which `Window.MainWindow.CalculateMaxPressure` is proved equal to |
| Simulation.UpdateStatus | mainwindow.cpp:301-316 | reference transition for updateStatus, which `Window.MainWindow.UpdateStatus` is proved equal to |
| Simulation.UpdateUI | mainwindow.cpp:318-339 | reference transition for the bar part of updateUI, which `Window.MainWindow.UpdateUI` is proved equal to |
| Simulation.ModeChanged | mainwindow.cpp:186-191 | reference transition for onModeChanged, which `Window.MainWindow.OnModeChanged` is proved equal to |
| Simulation.FluidChanged | mainwindow.cpp:193-201 | reference transition for onFluidChanged, which `Window.MainWindow.OnFluidChanged` is proved equal to |
| Simulation.StructureChanged | mainwindow.cpp:203-206 | reference transition for onStructureChanged, which `Window.MainWindow.OnStructureChanged` is proved equal to |
| Simulation.SafetyChanged | mainwindow.cpp:208-213 | reference transition for onSafetyChanged, which `Window.MainWindow.OnSafetyChanged` is proved equal to |
| Simulation.RateChanged | mainwindow.cpp:215-219 | reference transition for the empty onRateChanged plus the spin box's new value, which `Window.MainWindow.OnRateChanged` is proved equal to |
| Simulation.Start | mainwindow.cpp:222-239 | reference transition for startSimulation, which `Window.MainWindow.StartSimulation` is proved equal to |
| Simulation.Reset | mainwindow.cpp:241-250 | reference transition for resetSimulation, which `Window.MainWindow.ResetSimulation` is proved equal to |
| Simulation.Tick | mainwindow.cpp:252-275 | reference transition for updateSimulation, which `Window.MainWindow.UpdateSimulation` is proved equal to |
| Simulation.InitialSatisfiesInv | mainwindow.cpp:6-23 | the constructed state satisfies the invariant: widgets in range, pressure = atm + density*g*depth, the initial threshold, a never-started timer and a full bar |
| Simulation.InvMaxAboveAtmosphere | mainwindow.cpp:283-299 | in every invariant state, with the initial 450000 or a table value, the threshold is above atmosphere |
| Simulation.TickPreservesInv | mainwindow.cpp:252-281 | a timer tick preserves the invariant: pressure follows the new depth and a failure shows FAILED |
| Simulation.FluidChangePreservesInv | mainwindow.cpp:193-201 | a fluid change to an existing item keeps the invariant |
| Simulation.MaxRecomputePreservesInv | mainwindow.cpp:283-299 | a threshold recompute after a structure, mode or slider change within range keeps the invariant |
| Simulation.ResetPreservesInv | mainwindow.cpp:241-250 | reset keeps the invariant |
| Simulation.ApplyPreservesInv | mainwindow.cpp:186-275 | every slot, given widget-range input, preserves the invariant |
| Simulation.RunPreservesInv | mainwindow.cpp:186-281 | every sequence of such events preserves the invariant |
| Simulation.ReachableSatisfiesInv | mainwindow.cpp:6-281 | every state reachable from construction satisfies the invariant; its pressure is atm + density*g*depth |
| Simulation.FluidChangeRecomputesPressure | mainwindow.cpp:193-201 | a fluid change sets the density from the table and the pressure for it; depth, threshold, both flags and status tag are untouched |
| Simulation.MaxRecomputeKeepsSimulation | mainwindow.cpp:186-213 | structure, mode and safety changes set the threshold from the table; apart from that widget and the threshold, the whole state (depth, pressure, fluid, rate, flags, period, status, bar value and colour) is unchanged |
| Simulation.SliderInPresetModeReplacesInitialMax | mainwindow.cpp:208-213 | in preset mode a slider move still sets the threshold to 1.5*base; that equals 450000 only when the base is 300000 (the window allows such a move until the first mode change disables the slider) |
| Simulation.TableValuesEqualToInitialMax | mainwindow.cpp:283-299 | with the slider in 10..30 the table gives 450000 iff the base is 300000 and the mode is preset or the slider is 15 |
| Simulation.InitialMaxUntilConfigured | mainwindow.cpp:11 | while no structure, mode or safety change arrives, the threshold stays 450000 |
| Simulation.StartWhileFailedIsNoop | mainwindow.cpp:224 | start while failed leaves the whole state as it was |
| Simulation.StartFixesInterval | mainwindow.cpp:222-239 | start when not failed sets the running flag and the period fixed by the current rate, and changes nothing else |
| Simulation.TickAdvances | mainwindow.cpp:252-275 | a tick when not failed adds exactly rate*period/1000 to depth and sets the pressure of the new depth; it fails iff that pressure >= threshold; it leaves the running flag, threshold and period alone |
| Simulation.TickDeepens | mainwindow.cpp:259-264 | a tick while running and not failed strictly increases depth and pressure |
| Simulation.TickShowsStatus | mainwindow.cpp:264-273 | after a tick from a non-failed state the label shows the band of the new pressure, and FAILED when the tick failed |
| Simulation.TickWhenFailedIsNoop | mainwindow.cpp:254-257 | a tick when failed changes nothing |
| Simulation.TickUsesCurrentRateAndStartPeriod | mainwindow.cpp:231-261 | after start and a rate change, a tick descends at the new rate over the period chosen at start |
| Simulation.OnlyResetClearsFailure | mainwindow.cpp:186-275 | from a failed state every event except reset keeps the failure flag and the depth |
| Simulation.FailureIsSticky | mainwindow.cpp:186-275 | through any event sequence without reset, a failed simulation stays failed, keeps its depth and keeps showing FAILED |
| Simulation.DepthNeverDecreases | mainwindow.cpp:252-261 | through any admissible event sequence without reset, depth never decreases |
| Simulation.ResetRestores | mainwindow.cpp:241-250 | reset gives depth 0, atmospheric pressure, both flags false, and keeps threshold, density, period and status tag |
| Simulation.ResetFillsBar | mainwindow.cpp:244-249 | from an invariant state, reset repaints the bar full (100) and green |
| Simulation.ResetIdempotent | mainwindow.cpp:241-250 | resetting twice is the same as resetting once |
| Simulation.FirstTickExample | mainwindow.cpp:6-275 | construction, start and one tick: depth 0.2, pressure 103287, SAFE, running, threshold still 450000 |
| Simulation.ExactThresholdFails | mainwindow.cpp:269-274 | a tick that reaches the threshold exactly fails and shows FAILED, and start is then a no-op |
| Window.MainWindow.constructor | mainwindow.cpp:6-23 | the new window holds the initial state and satisfies the invariant |
| Window.MainWindow.CalculatePressure | mainwindow.cpp:278-281 | sets pressure from density and depth; nothing else changes |
| Window.MainWindow.CalculateMaxPressure | mainwindow.cpp:283-299 | sets the threshold from structure, mode and slider; nothing else changes |
| Window.MainWindow.UpdateStatus | mainwindow.cpp:301-316 | sets the status tag to the band of the pressure; nothing else changes |
| Window.MainWindow.UpdateUI | mainwindow.cpp:318-339 | sets the bar value to the clamped margin and its colour; nothing else changes |
| Window.MainWindow.OnModeChanged | mainwindow.cpp:186-191 | stores the mode and recomputes the threshold; keeps the invariant |
| Window.MainWindow.OnFluidChanged | mainwindow.cpp:193-201 | stores the fluid, sets density and pressure, repaints the bar; keeps the invariant |
| Window.MainWindow.OnStructureChanged | mainwindow.cpp:203-206 | stores the structure and recomputes the threshold; keeps the invariant |
| Window.MainWindow.OnSafetyChanged | mainwindow.cpp:208-213 | stores the slider and recomputes the threshold; keeps the invariant |
| Window.MainWindow.OnRateChanged | mainwindow.cpp:215-219 | only the rate value changes; keeps the invariant |
| Window.MainWindow.StartSimulation | mainwindow.cpp:222-239 | does nothing when failed; otherwise sets running and the period bucket of the current rate |
| Window.MainWindow.ResetSimulation | mainwindow.cpp:241-250 | back to the surface with both flags cleared and the bar repainted; keeps the invariant |
| Window.MainWindow.UpdateSimulation | mainwindow.cpp:252-275 | the timer callback leaves exactly the state `Simulation.Tick` describes and keeps the invariant |
| Window.FirstTick | mainwindow.cpp:6-275 | a client of the class: a fresh window, start and one tick show depth 0.2, pressure 103287 and SAFE |

## Left out

- Widget construction, layout, style sheets, tooltips and the explanatory text panes (mainwindow.cpp:25-183): presentation only.
- Signal/slot wiring and the `QTimer` (mainwindow.cpp:18-19, 238, 243, 255, 271): a tick is an explicit call. Starting and stopping the timer is not modelled, so a tick may be applied at any time. The stored period starts at 0, the toolkit's default for a timer never started; a tick before the first start descends by 0.
- The toolkit emits `currentIndexChanged` and `valueChanged` only when the value really changes. The model lets an event re-select the current value and still run the slot, so it admits more event sequences than the window: re-selecting Simple at start replaces 450000 by 750000, which the window does not do. Every lemma over all event sequences stays valid for the sequences the window can produce.
- The slots read the widgets' current indices and values. Here each slot takes the new value as its argument and stores it, so a widget change and its slot are one step. The class methods require the values the widgets can deliver. The pure functions accept any index and give the code's `else` results.
- IEEE-754 `double` rounding: all quantities are exact reals, so `9.81` and `0.8` are exact. A zero denominator in the margin (threshold equal to atmosphere, which no reachable state has) gets the value that the infinities or NaN give after `qMin`/`qMax`.
- The `(int)` truncation of the bar value (mainwindow.cpp:330) and the number and label formatting (mainwindow.cpp:321-325): display only. The bar value is kept as the real margin.
- The label texts and colours beyond the status tag: "FAILED!" (mainwindow.cpp:272) and "FAILED" (mainwindow.cpp:313) are the same tag.
- The enable flags of the start button and the safety slider (mainwindow.cpp:189, 227, 248). The start button is disabled by a start and enabled again only by a reset (mainwindow.cpp:227, 248), so it is enabled exactly when `isRunning` is false. The slider's flag is set only by the mode slot (mainwindow.cpp:189), which construction does not run because the mode box is connected after its items are added (mainwindow.cpp:37-38); so the slider is enabled at construction and, after the first mode change, only in custom mode. The model ignores both flags. It therefore also accepts a start during a run, which picks the period again from the current rate, and slider moves while the slider is disabled. Every lemma over all event sequences stays valid for the sequences the window can produce.
- mainwindow.h only declares the fields and the constants `atmPressure` and `gravity` (mainwindow.h:37-46). It is cited, not modelled.
