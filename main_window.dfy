/**
 The simulator window with its widgets replaced by plain fields: each slot
 updates the fields in place, as the window does, and is proved to produce
 exactly the state the matching transition of `Simulation` describes.
 */
module Window {
  import opened Hydrostatics
  import opened Simulation

  class MainWindow {
    // current values of the input widgets
    var mode: int
    var fluid: int
    var structure: int
    var slider: int
    var rate: real

    // simulation variables
    var depth: real
    var pressure: real
    var maxPressure: real
    var fluidDensity: real
    var isRunning: bool
    var hasFailed: bool

    // timer period, status label and safety bar
    var interval: int
    var status: Status
    var barValue: real
    var barColour: BarColour

    /** The window's state as a value. */
    function Snapshot(): State
      reads this
    {
      State(mode, fluid, structure, slider, rate,
            depth, pressure, maxPressure, fluidDensity, isRunning, hasFailed,
            interval, status, barValue, barColour)
    }

    ghost predicate Valid()
      reads this
    {
      Inv(Snapshot())
    }

    constructor ()
      ensures Snapshot() == Initial()
      ensures Valid()
    {
      mode, fluid, structure, slider, rate := 0, 0, 0, 20, 2.0;
      depth := 0.0;
      pressure := AtmPressure;
      maxPressure := InitialMaxPressure;
      isRunning := false;
      hasFailed := false;
      fluidDensity := 1000.0;
      interval := 0;
      status := Safe;
      barValue, barColour := 100.0, Unstyled;
      InitialSatisfiesInv();
    }

    // ---- private helpers ----

    method CalculatePressure()
      modifies this
      ensures Snapshot() == Simulation.CalculatePressure(old(Snapshot()))
    {
      pressure := AtmPressure + fluidDensity * Gravity * depth;
    }

    method CalculateMaxPressure()
      modifies this
      ensures Snapshot() == Simulation.CalculateMaxPressure(old(Snapshot()))
    {
      var base: real;
      if structure == 0 {
        base := 500000.0;
      } else if structure == 1 {
        base := 1000000.0;
      } else if structure == 2 {
        base := 2000000.0;
      } else {
        base := 300000.0;
      }
      if mode == PresetMode {
        maxPressure := base * 1.5;
      } else {
        var factor := slider as real / 10.0;
        maxPressure := base * factor;
      }
    }

    method UpdateStatus()
      modifies this
      ensures Snapshot() == Simulation.UpdateStatus(old(Snapshot()))
    {
      var critical := 0.8 * maxPressure;
      if pressure < critical {
        status := Safe;
      } else if pressure < maxPressure {
        status := Critical;
      } else {
        status := Failed;
      }
    }

    method UpdateUI()
      modifies this
      ensures Snapshot() == Simulation.UpdateUI(old(Snapshot()))
    {
      var safety: real;
      if maxPressure == AtmPressure {
        safety := if pressure < AtmPressure then 100.0 else 0.0;
      } else {
        safety := 100.0 * (1.0 - (pressure - AtmPressure) / (maxPressure - AtmPressure));
        safety := QMax(0.0, QMin(100.0, safety));
      }
      barValue := safety;
      if safety > 70.0 {
        barColour := Green;
      } else if safety > 30.0 {
        barColour := Yellow;
      } else {
        barColour := Red;
      }
    }

    // ---- slots ----

    method OnModeChanged(index: int)
      requires Valid() && 0 <= index <= 1
      modifies this
      ensures Valid()
      ensures Snapshot() == ModeChanged(old(Snapshot()), index)
    {
      ApplyPreservesInv(Snapshot(), ModeSelected(index));
      mode := index;
      CalculateMaxPressure();
    }

    method OnFluidChanged(index: int)
      requires Valid() && 0 <= index <= 2
      modifies this
      ensures Valid()
      ensures Snapshot() == FluidChanged(old(Snapshot()), index)
    {
      ApplyPreservesInv(Snapshot(), FluidSelected(index));
      fluid := index;
      if index == 0 {
        fluidDensity := 1000.0;
      } else if index == 1 {
        fluidDensity := 1025.0;
      } else {
        fluidDensity := 1200.0;
      }
      CalculatePressure();
      UpdateUI();
    }

    method OnStructureChanged(index: int)
      requires Valid() && 0 <= index <= 3
      modifies this
      ensures Valid()
      ensures Snapshot() == StructureChanged(old(Snapshot()), index)
    {
      ApplyPreservesInv(Snapshot(), StructureSelected(index));
      structure := index;
      CalculateMaxPressure();
    }

    method OnSafetyChanged(value: int)
      requires Valid() && 10 <= value <= 30
      modifies this
      ensures Valid()
      ensures Snapshot() == SafetyChanged(old(Snapshot()), value)
    {
      ApplyPreservesInv(Snapshot(), SafetyMoved(value));
      slider := value;
      CalculateMaxPressure();
    }

    /** The slot itself is empty; the new value is the spin box's. */
    method OnRateChanged(value: real)
      requires Valid() && 0.5 <= value <= 50.0
      modifies this
      ensures Valid()
      ensures Snapshot() == RateChanged(old(Snapshot()), value)
    {
      rate := value;
    }

    method StartSimulation()
      requires Valid()
      modifies this
      ensures Valid()
      ensures Snapshot() == Start(old(Snapshot()))
    {
      if hasFailed {
        return;
      }
      isRunning := true;
      if rate <= 2.0 {
        interval := 100;
      } else if rate <= 10.0 {
        interval := 50;
      } else {
        interval := 20;
      }
    }

    method ResetSimulation()
      requires Valid()
      modifies this
      ensures Valid()
      ensures Snapshot() == Reset(old(Snapshot()))
    {
      ApplyPreservesInv(Snapshot(), ResetPressed);
      depth := 0.0;
      pressure := AtmPressure;
      hasFailed := false;
      isRunning := false;
      UpdateUI();
    }

    /** The timer callback. */
    method UpdateSimulation()
      requires Valid()
      modifies this
      ensures Valid()
      ensures Snapshot() == Tick(old(Snapshot()))
    {
      ghost var before := Snapshot();
      if hasFailed {
        TickPreservesInv(before);
        return;
      }
      var timeStep := interval as real / 1000.0;
      depth := depth + rate * timeStep;
      ghost var descended := Snapshot();
      assert descended == before.(depth := before.depth + StepLength(before.rate, before.interval));
      CalculatePressure();
      UpdateStatus();
      UpdateUI();
      ghost var shown := Snapshot();
      assert shown == Simulation.UpdateUI(Simulation.UpdateStatus(Simulation.CalculatePressure(descended)));
      if pressure >= maxPressure {
        hasFailed := true;
        status := Failed;
      }
      assert Snapshot() == Tick(before);
      TickPreservesInv(before);
    }
  }

  /** A client: construction, start and one tick give the documented first step. */
  method FirstTick() returns (depthShown: real, pressureShown: real, statusShown: Status)
    ensures depthShown == 0.2 && pressureShown == 103287.0 && statusShown == Safe
  {
    var w := new MainWindow();
    w.StartSimulation();
    w.UpdateSimulation();
    depthShown, pressureShown, statusShown := w.depth, w.pressure, w.status;
  }
}
