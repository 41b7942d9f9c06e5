/**
 The window's simulation state as a value, with one transition function per
 slot of the window (configuration changes, start, reset, timer tick) and the
 helpers they share. The window class is proved to follow these functions;
 the lemmas here state what every sequence of such events preserves.
 */
module Simulation {
  import opened Hydrostatics

  /**
   Everything the slots read or write: the current values of the five input
   widgets, the simulation variables, the timer period last started, the
   status tag, and the value and colour of the safety bar.
   */
  datatype State = State(
    // input widgets
    mode: int,
    fluid: int,
    structure: int,
    slider: int,
    rate: real,
    // simulation variables
    depth: real,
    pressure: real,
    maxPressure: real,
    fluidDensity: real,
    isRunning: bool,
    hasFailed: bool,
    // timer period in milliseconds, status label, safety bar
    interval: int,
    status: Status,
    barValue: real,
    barColour: BarColour)

  /**
   The state after construction: widgets at their first items, slider 20 and
   rate 2.0; depth 0 at atmospheric pressure in fresh water; a threshold of
   450000, which is not the table's 750000 for the first selection (Simple,
   preset); the timer never started (period 0);
   label "SAFE" and a full, not yet coloured, bar.
   */
  function Initial(): State
  {
    State(0, 0, 0, 20, 2.0,
          0.0, AtmPressure, InitialMaxPressure, 1000.0, false, false,
          0, Safe, 100.0, Unstyled)
  }

  // ---- the window's private helpers ----

  function CalculatePressure(s: State): State
  {
    s.(pressure := Pressure(s.fluidDensity, s.depth))
  }

  function CalculateMaxPressure(s: State): State
  {
    s.(maxPressure := MaxPressure(s.mode, s.structure, s.slider))
  }

  function UpdateStatus(s: State): State
  {
    s.(status := Classify(s.pressure, s.maxPressure))
  }

  function UpdateUI(s: State): State
  {
    var margin := SafetyMargin(s.pressure, s.maxPressure);
    s.(barValue := margin, barColour := BarColourFor(margin))
  }

  // ---- the slots ----

  function ModeChanged(s: State, index: int): State
  {
    CalculateMaxPressure(s.(mode := index))
  }

  function FluidChanged(s: State, index: int): State
  {
    UpdateUI(CalculatePressure(s.(fluid := index, fluidDensity := FluidDensity(index))))
  }

  function StructureChanged(s: State, index: int): State
  {
    CalculateMaxPressure(s.(structure := index))
  }

  function SafetyChanged(s: State, value: int): State
  {
    CalculateMaxPressure(s.(slider := value))
  }

  /** The rate slot does nothing; only the spin box's own value changes. */
  function RateChanged(s: State, value: real): State
  {
    s.(rate := value)
  }

  function Start(s: State): State
  {
    if s.hasFailed then s
    else s.(isRunning := true, interval := TimerInterval(s.rate))
  }

  function Reset(s: State): State
  {
    UpdateUI(s.(depth := 0.0, pressure := AtmPressure, hasFailed := false, isRunning := false))
  }

  /**
   One timer tick: descend by the current rate over the stored period,
   recompute pressure, status and bar, and fail once the threshold is reached.
   */
  function Tick(s: State): State
  {
    if s.hasFailed then s
    else
      var descended := s.(depth := s.depth + StepLength(s.rate, s.interval));
      var shown := UpdateUI(UpdateStatus(CalculatePressure(descended)));
      if shown.pressure >= shown.maxPressure then shown.(hasFailed := true, status := Failed)
      else shown
  }

  // ---- event sequences ----

  /** What the user or the timer can do to the window. */
  datatype Event =
    | ModeSelected(index: int)
    | FluidSelected(index: int)
    | StructureSelected(index: int)
    | SafetyMoved(position: int)
    | RateEdited(newRate: real)
    | StartPressed
    | ResetPressed
    | TimerFired

  function Apply(s: State, e: Event): State
  {
    match e
    case ModeSelected(i) => ModeChanged(s, i)
    case FluidSelected(i) => FluidChanged(s, i)
    case StructureSelected(i) => StructureChanged(s, i)
    case SafetyMoved(v) => SafetyChanged(s, v)
    case RateEdited(r) => RateChanged(s, r)
    case StartPressed => Start(s)
    case ResetPressed => Reset(s)
    case TimerFired => Tick(s)
  }

  function Run(s: State, events: seq<Event>): State
    decreases |events|
  {
    if events == [] then s else Run(Apply(s, events[0]), events[1..])
  }

  /** An event the widgets can deliver: indices of existing items, values inside the widgets' ranges. */
  predicate Admissible(e: Event)
  {
    match e
    case ModeSelected(i) => 0 <= i <= 1
    case FluidSelected(i) => 0 <= i <= 2
    case StructureSelected(i) => 0 <= i <= 3
    case SafetyMoved(v) => 10 <= v <= 30
    case RateEdited(r) => 0.5 <= r <= 50.0
    case _ => true
  }

  predicate AllAdmissible(events: seq<Event>)
  {
    forall i :: 0 <= i < |events| ==> Admissible(events[i])
  }

  /** The configuration changes that recompute the threshold. */
  predicate RecomputesMax(e: Event)
  {
    e.ModeSelected? || e.StructureSelected? || e.SafetyMoved?
  }

  predicate NoReset(events: seq<Event>)
  {
    forall i :: 0 <= i < |events| ==> !events[i].ResetPressed?
  }

  predicate NoMaxRecompute(events: seq<Event>)
  {
    forall i :: 0 <= i < |events| ==> !RecomputesMax(events[i])
  }

  // ---- the invariant ----

  predicate WidgetsInRange(s: State)
  {
    && 0 <= s.mode <= 1
    && 0 <= s.fluid <= 2
    && 0 <= s.structure <= 3
    && 10 <= s.slider <= 30
    && 0.5 <= s.rate <= 50.0
  }

  /**
   What holds in every state the window can reach: pressure is the
   hydrostatic pressure of the current depth and fluid; the threshold is the
   initial one or the table's value for the current widgets; a failed
   simulation shows FAILED; a running timer has one of the three periods.
   */
  predicate Inv(s: State)
  {
    && WidgetsInRange(s)
    && s.depth >= 0.0
    && s.fluidDensity == FluidDensity(s.fluid)
    && s.pressure == Pressure(s.fluidDensity, s.depth)
    && (s.maxPressure == InitialMaxPressure
        || s.maxPressure == MaxPressure(s.mode, s.structure, s.slider))
    && (s.hasFailed ==> s.status == Failed)
    && (s.interval == 0 || s.interval == 20 || s.interval == 50 || s.interval == 100)
    && (s.isRunning ==> s.interval > 0)
    && 0.0 <= s.barValue <= 100.0
  }

  lemma InitialSatisfiesInv()
    ensures Inv(Initial())
  {
  }

  /** Every threshold an invariant state can hold lies above atmospheric pressure. */
  lemma InvMaxAboveAtmosphere(s: State)
    requires Inv(s)
    ensures s.maxPressure > AtmPressure
  {
    if s.maxPressure != InitialMaxPressure {
      MaxPressureAboveAtmosphere(s.mode, s.structure, s.slider);
    }
  }

  /** A tick keeps the invariant: pressure follows the new depth, a failure shows FAILED. */
  lemma TickPreservesInv(s: State)
    requires Inv(s)
    ensures Inv(Tick(s))
  {
    if !s.hasFailed {
      assert StepLength(s.rate, s.interval) >= 0.0;
    }
  }

  /** A fluid change keeps pressure tied to the new density; the bar stays in range. */
  lemma FluidChangePreservesInv(s: State, index: int)
    requires Inv(s) && 0 <= index <= 2
    ensures Inv(FluidChanged(s, index))
  {
  }

  /** A threshold recompute puts the table's value in place and touches nothing the invariant ties to depth. */
  lemma MaxRecomputePreservesInv(s: State, changed: State)
    requires Inv(s) && WidgetsInRange(changed)
    requires changed == s.(mode := changed.mode, structure := changed.structure, slider := changed.slider)
    ensures Inv(CalculateMaxPressure(changed))
  {
  }

  /** Reset returns to the surface, where pressure is atmospheric in every fluid. */
  lemma ResetPreservesInv(s: State)
    requires Inv(s)
    ensures Inv(Reset(s))
  {
    assert Pressure(s.fluidDensity, 0.0) == AtmPressure;
  }

  lemma ApplyPreservesInv(s: State, e: Event)
    requires Inv(s) && Admissible(e)
    ensures Inv(Apply(s, e))
  {
    match e
    case ModeSelected(i) =>
      MaxRecomputePreservesInv(s, s.(mode := i));
    case FluidSelected(i) =>
      FluidChangePreservesInv(s, i);
    case StructureSelected(i) =>
      MaxRecomputePreservesInv(s, s.(structure := i));
    case SafetyMoved(v) =>
      MaxRecomputePreservesInv(s, s.(slider := v));
    case RateEdited(r) =>
      assert Inv(RateChanged(s, r));
    case StartPressed =>
      assert Inv(Start(s));
    case ResetPressed =>
      ResetPreservesInv(s);
    case TimerFired =>
      TickPreservesInv(s);
  }

  /** The invariant survives every sequence of admissible events. */
  lemma {:induction false} RunPreservesInv(s: State, events: seq<Event>)
    requires Inv(s) && AllAdmissible(events)
    ensures Inv(Run(s, events))
    decreases |events|
  {
    if events != [] {
      assert Admissible(events[0]);
      ApplyPreservesInv(s, events[0]);
      assert AllAdmissible(events[1..]) by {
        forall i | 0 <= i < |events[1..]| ensures Admissible(events[1..][i]) {
          assert events[1..][i] == events[i + 1];
        }
      }
      RunPreservesInv(Apply(s, events[0]), events[1..]);
    }
  }

  /** Every state reachable from construction satisfies the invariant, so pressure always matches depth. */
  lemma ReachableSatisfiesInv(events: seq<Event>)
    requires AllAdmissible(events)
    ensures Inv(Run(Initial(), events))
    ensures Run(Initial(), events).pressure
         == AtmPressure + Run(Initial(), events).fluidDensity * Gravity * Run(Initial(), events).depth
  {
    InitialSatisfiesInv();
    RunPreservesInv(Initial(), events);
  }

  // ---- configuration changes ----

  /** Fluid changes recompute pressure for the new density and leave depth, threshold, flags and status alone. */
  lemma FluidChangeRecomputesPressure(s: State, index: int)
    ensures FluidChanged(s, index).fluidDensity == FluidDensity(index)
    ensures FluidChanged(s, index).pressure == Pressure(FluidDensity(index), s.depth)
    ensures FluidChanged(s, index).depth == s.depth
    ensures FluidChanged(s, index).maxPressure == s.maxPressure
    ensures FluidChanged(s, index).hasFailed == s.hasFailed
    ensures FluidChanged(s, index).isRunning == s.isRunning
    ensures FluidChanged(s, index).status == s.status
  {
  }

  /** Structure, mode and safety changes set the threshold from the table and touch nothing of the simulation. */
  lemma MaxRecomputeKeepsSimulation(s: State, e: Event)
    requires RecomputesMax(e)
    ensures var t := Apply(s, e);
      && t.maxPressure == MaxPressure(t.mode, t.structure, t.slider)
      && t.(mode := s.mode, structure := s.structure, slider := s.slider,
            maxPressure := s.maxPressure) == s
  {
  }

  /**
   Even in preset mode, moving the slider replaces the initial threshold by the
   table's 1.5 times the base; the two agree only for the structures whose base
   is 300000 (1.5 * 300000 is 450000).
   */
  lemma SliderInPresetModeReplacesInitialMax(s: State, value: int)
    requires s.mode == PresetMode
    ensures SafetyChanged(s, value).maxPressure == 1.5 * BaseThreshold(s.structure)
    ensures SafetyChanged(s, value).maxPressure == InitialMaxPressure
        <==> BaseThreshold(s.structure) == 300000.0
  {
  }

  /**
   Over the widgets' ranges the table gives 450000 exactly for a structure of
   base 300000 in preset mode, or in custom mode with the slider at 15.
   */
  lemma TableValuesEqualToInitialMax(mode: int, structure: int, slider: int)
    requires 10 <= slider <= 30
    ensures MaxPressure(mode, structure, slider) == InitialMaxPressure
        <==> BaseThreshold(structure) == 300000.0 && (mode == PresetMode || slider == 15)
  {
    var base := BaseThreshold(structure);
    if mode != PresetMode {
      assert MaxPressure(mode, structure, slider) == base * (slider as real / 10.0);
      if base != 300000.0 {
        assert base >= 500000.0;
        assert base * (slider as real / 10.0) >= 500000.0;
      } else if slider < 15 {
        assert 300000.0 * (slider as real / 10.0) < 450000.0;
      } else if slider > 15 {
        assert 300000.0 * (slider as real / 10.0) > 450000.0;
      }
    }
  }

  /** Until a structure, mode or safety change arrives, the threshold stays at its initial 450000. */
  lemma {:induction false} InitialMaxUntilConfigured(s: State, events: seq<Event>)
    requires s.maxPressure == InitialMaxPressure && NoMaxRecompute(events)
    ensures Run(s, events).maxPressure == InitialMaxPressure
    decreases |events|
  {
    if events != [] {
      assert !RecomputesMax(events[0]);
      assert NoMaxRecompute(events[1..]) by {
        forall i | 0 <= i < |events[1..]| ensures !RecomputesMax(events[1..][i]) {
          assert events[1..][i] == events[i + 1];
        }
      }
      InitialMaxUntilConfigured(Apply(s, events[0]), events[1..]);
    }
  }

  // ---- start ----

  /** Starting while failed changes nothing. */
  lemma StartWhileFailedIsNoop(s: State)
    requires s.hasFailed
    ensures Start(s) == s
  {
  }

  /** Starting otherwise sets the running flag and fixes the period from the rate at that moment. */
  lemma StartFixesInterval(s: State)
    requires !s.hasFailed
    ensures Start(s).isRunning
    ensures Start(s).interval == TimerInterval(s.rate)
    ensures Start(s).(isRunning := s.isRunning, interval := s.interval) == s
  {
  }

  // ---- tick ----

  /**
   A tick when not failed descends by exactly rate * period / 1000, sets the
   pressure of the new depth, and fails exactly when that pressure reaches the
   threshold; the running flag is left as it was, even on failure.
   */
  lemma TickAdvances(s: State)
    requires !s.hasFailed
    ensures var t := Tick(s);
      && t.depth == s.depth + s.rate * (s.interval as real / 1000.0)
      && t.pressure == Pressure(s.fluidDensity, t.depth)
      && (t.hasFailed <==> t.pressure >= s.maxPressure)
      && t.isRunning == s.isRunning
      && t.maxPressure == s.maxPressure && t.interval == s.interval
  {
  }

  /** In a running, not failed simulation a tick strictly deepens and strictly raises pressure. */
  lemma TickDeepens(s: State)
    requires Inv(s) && s.isRunning && !s.hasFailed
    ensures Tick(s).depth > s.depth
    ensures Tick(s).pressure > s.pressure
  {
    assert StepLength(s.rate, s.interval) > 0.0;
    PressureIncreasesWithDepth(s.fluidDensity, s.depth, Tick(s).depth);
  }

  /** After a tick the label shows the band of the new pressure; once failed it shows FAILED. */
  lemma TickShowsStatus(s: State)
    requires Inv(s) && !s.hasFailed
    ensures Tick(s).status == Classify(Tick(s).pressure, Tick(s).maxPressure)
    ensures Tick(s).hasFailed ==> Tick(s).status == Failed
  {
    InvMaxAboveAtmosphere(s);
  }

  /** A tick when failed changes nothing at all. */
  lemma TickWhenFailedIsNoop(s: State)
    requires s.hasFailed
    ensures Tick(s) == s
  {
  }

  /** Each tick reads the rate of that moment while the period stays the one fixed at start. */
  lemma TickUsesCurrentRateAndStartPeriod(s: State, newRate: real)
    requires !s.hasFailed
    ensures Tick(RateChanged(Start(s), newRate)).depth
         == s.depth + StepLength(newRate, TimerInterval(s.rate))
  {
  }

  // ---- failure is sticky ----

  /** No event but reset clears the failure flag. */
  lemma OnlyResetClearsFailure(s: State, e: Event)
    requires s.hasFailed && !e.ResetPressed?
    ensures Apply(s, e).hasFailed
    ensures Apply(s, e).depth == s.depth
  {
  }

  /**
   Once failed and until a reset, the simulation stays failed, keeps its
   depth and keeps showing FAILED, whatever configuration changes arrive.
   */
  lemma {:induction false} FailureIsSticky(s: State, events: seq<Event>)
    requires s.hasFailed && s.status == Failed && NoReset(events)
    ensures Run(s, events).hasFailed
    ensures Run(s, events).depth == s.depth
    ensures Run(s, events).status == Failed
    decreases |events|
  {
    if events != [] {
      assert !events[0].ResetPressed?;
      OnlyResetClearsFailure(s, events[0]);
      assert NoReset(events[1..]) by {
        forall i | 0 <= i < |events[1..]| ensures !events[1..][i].ResetPressed? {
          assert events[1..][i] == events[i + 1];
        }
      }
      FailureIsSticky(Apply(s, events[0]), events[1..]);
    }
  }

  /** Until a reset, depth never decreases. */
  lemma {:induction false} DepthNeverDecreases(s: State, events: seq<Event>)
    requires Inv(s) && AllAdmissible(events) && NoReset(events)
    ensures s.depth <= Run(s, events).depth
    decreases |events|
  {
    if events != [] {
      var e := events[0];
      assert Admissible(e) && !e.ResetPressed?;
      ApplyPreservesInv(s, e);
      if e.TimerFired? && !s.hasFailed {
        assert StepLength(s.rate, s.interval) >= 0.0;
      }
      assert s.depth <= Apply(s, e).depth;
      assert AllAdmissible(events[1..]) && NoReset(events[1..]) by {
        forall i | 0 <= i < |events[1..]|
          ensures Admissible(events[1..][i]) && !events[1..][i].ResetPressed?
        {
          assert events[1..][i] == events[i + 1];
        }
      }
      DepthNeverDecreases(Apply(s, e), events[1..]);
    }
  }

  // ---- reset ----

  /**
   Reset returns to the surface, clears both flags and repaints the bar, and
   leaves threshold, fluid, period and status tag as they were.
   */
  lemma ResetRestores(s: State)
    ensures var t := Reset(s);
      && t.depth == 0.0 && t.pressure == AtmPressure
      && !t.hasFailed && !t.isRunning
      && t.maxPressure == s.maxPressure && t.fluidDensity == s.fluidDensity
      && t.status == s.status && t.interval == s.interval
      && t.pressure == Pressure(t.fluidDensity, t.depth)
  {
  }

  /** Under any threshold above atmosphere the reset bar is full and green. */
  lemma ResetFillsBar(s: State)
    requires Inv(s)
    ensures Reset(s).barValue == 100.0 && Reset(s).barColour == Green
  {
    InvMaxAboveAtmosphere(s);
  }

  /** Resetting twice is resetting once. */
  lemma ResetIdempotent(s: State)
    ensures Reset(Reset(s)) == Reset(s)
  {
  }

  // ---- examples ----

  /**
   Right after construction, start and one tick at the default rate 2.0 and
   period 100 ms: depth 0.2 m, pressure 103287 Pa, still safe.
   */
  lemma FirstTickExample()
    ensures var t := Run(Initial(), [StartPressed, TimerFired]);
      && t.depth == 0.2 && t.pressure == 103287.0
      && t.status == Safe && !t.hasFailed && t.isRunning
      && t.maxPressure == InitialMaxPressure
  {
    var started := Start(Initial());
    assert started.interval == 100;
    assert Run(Initial(), [StartPressed, TimerFired]) == Tick(started) by {
      assert [StartPressed, TimerFired][1..] == [TimerFired];
      assert [TimerFired][1..] == [];
    }
  }

  /** Reaching the threshold exactly fails the simulation, shows FAILED, and makes start a no-op. */
  lemma ExactThresholdFails(s: State)
    requires Inv(s) && !s.hasFailed
    requires Tick(s).pressure == s.maxPressure
    ensures Tick(s).hasFailed && Tick(s).status == Failed
    ensures Start(Tick(s)) == Tick(s)
  {
  }
}
