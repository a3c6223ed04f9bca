/**
 * The domain machine entity (`MachineDomain.CncMachine`): a status state
 * machine, production counters and targets, axis positions, one telemetry
 * value perturbed by a background update loop, and the `MachineStateChanged`
 * notification.
 *
 * The class keeps the entity's fields and changes them in place; `View()`
 * reads them into a `Machine` value, and each method is specified by a pure
 * transition function on that value, whose properties are stated and proved
 * below the class.
 */
module MachineDomain {
  import opened Wrappers
  import opened MachineTypes

  datatype Identity = Identity(
    name: string,
    serialNumber: string,
    plant: string,
    productionSegment: string,
    productionLine: string)

  /** Good, bad and total parts and the order progress in percent. */
  datatype Counters = Counters(goodParts: real, badParts: real, totalParts: real, progress: real)

  /** The five optional setpoints a production order brings. */
  datatype Targets = Targets(
    spindleSpeed: Option<Double>,
    feedRate: Option<Double>,
    surfaceFinish: Option<Double>,
    cycleTime: Option<Double>,
    coolantFlow: Option<Double>)

  datatype Axes = Axes(x: real, y: real, z: real)

  /** The background update loops. Every `StartMachine` creates a new
      cancellation token source and starts one loop observing it; loop `i`
      observes `cancelRequested[i]`. `tokenSource` and `updateTask` say which
      loop the fields `_cancellationTokenSource` and `_updateTask` refer to. */
  datatype Lifecycle = Lifecycle(
    cancelRequested: seq<bool>,
    tokenSource: Option<nat>,
    updateTask: Option<nat>)

  /** The observable state of one machine. */
  datatype Machine = Machine(
    identity: Identity,
    productionOrder: string,
    article: string,
    status: MachineStatus,
    phase: MachinePhase,
    spindleSpeed: Double,
    feedRate: string,
    coolantTemperature: string,
    cycleTime: string,
    counters: Counters,
    targets: Targets,
    toolNumber: Option<string>,
    axes: Axes,
    lifecycle: Lifecycle)

  const Zeroed := Counters(0.0, 0.0, 0.0, 0.0)

  /** The field initialisers of a new machine. */
  const Initial := Machine(
    Identity("PrecisionCraft VMC-850 #3", "VMC850-2023-003", "Munich Precision Manufacturing",
             "Aerospace Components", "5-Axis Machining Cell C"),
    "PO-2024-AERO-0876", "ART-TB-7075-T6",
    Running, Roughing,
    Finite(29487.0), "1198.5 mm/min", "22.5 °C", "73.2 seconds",
    Zeroed,
    Targets(None, None, None, None, None),
    None,
    Axes(0.0, 0.0, 0.0),
    Lifecycle([], None, None))

  // ---------------------------------------------------------------------
  // Order progress
  // ---------------------------------------------------------------------

  /** A whole number of hundredths, as rounding to two decimals yields. */
  predicate IsHundredths(x: real) {
    (x * 100.0).Floor as real == x * 100.0
  }

  /** A value the progress field can hold. */
  predicate ValidProgress(p: real) {
    0.0 <= p <= 100.0 && IsHundredths(p)
  }

  /** `Math.Max(0.0, Math.Min(100.0, x))`. */
  function Clamp(x: real): (r: real)
    ensures 0.0 <= r <= 100.0
    ensures 0.0 <= x <= 100.0 ==> r == x
  {
    if x < 0.0 then 0.0 else if x > 100.0 then 100.0 else x
  }

  /** `Math.Round(x, 2, MidpointRounding.AwayFromZero)` for a non-negative x:
      the nearest hundredth, halves rounded up. */
  function RoundHundredths(x: real): (r: real)
    requires x >= 0.0
    ensures IsHundredths(r)
    ensures x - 0.005 < r <= x + 0.005
    ensures x <= 100.0 ==> 0.0 <= r <= 100.0
    ensures IsHundredths(x) ==> r == x
  {
    var n := (x * 100.0 + 0.5).Floor;
    assert (n as real).Floor == n;
    assert IsHundredths(x) ==> n == (x * 100.0).Floor;
    n as real / 100.0
  }

  /** The value the `ProductionOrderProgress` setter stores, or the exception
      it throws for NaN and the infinities. */
  function ProgressValue(v: Double): (r: Result<real, Error>)
    ensures r.Failure? <==> !v.Finite?
    ensures r.Success? ==> ValidProgress(r.value)
    ensures r.Success? ==> Clamp(v.value) - 0.005 < r.value <= Clamp(v.value) + 0.005
    ensures v.Finite? && ValidProgress(v.value) ==> r == Success(v.value)
  {
    if !v.Finite? then Failure(ArgumentException("ProductionOrderProgress must be a finite number."))
    else Success(RoundHundredths(Clamp(v.value)))
  }

  // ---------------------------------------------------------------------
  // Telemetry
  // ---------------------------------------------------------------------

  /** `Math.Max(0, speed + delta)` on a double: NaN stays NaN, +Infinity
      stays +Infinity, -Infinity becomes 0. */
  function NextSpindleSpeed(speed: Double, delta: int): (r: Double)
    ensures r.Finite? ==> r.value >= 0.0
    ensures speed.Finite? ==> r.Finite?
    ensures speed.Finite? && speed.value + delta as real >= 0.0 ==> r.value == speed.value + delta as real
    ensures speed.Finite? && speed.value + delta as real < 0.0 ==> r.value == 0.0
    ensures speed.Finite? && speed.value >= 0.0 && -500 <= delta < 500 ==>
              -500.0 <= r.value - speed.value < 500.0
  {
    match speed
    case Finite(x) => Finite(if x + delta as real < 0.0 then 0.0 else x + delta as real)
    case NaN => NaN
    case PositiveInfinity => PositiveInfinity
    case NegativeInfinity => Finite(0.0)
  }

  /** The deltas `rand.Next(-500, 500)` can return. */
  predicate DeltasInRange(deltas: seq<int>) {
    forall i :: 0 <= i < |deltas| ==> -500 <= deltas[i] < 500
  }

  /** The spindle speed after one update iteration per delta, in order. */
  function AfterTicks(speed: Double, deltas: seq<int>): Double {
    if deltas == [] then speed
    else NextSpindleSpeed(AfterTicks(speed, deltas[..|deltas| - 1]), deltas[|deltas| - 1])
  }

  /** From a finite non-negative speed, any number of ticks keeps the speed
      finite and non-negative, and each tick moves it by at most 500. */
  lemma {:induction false} TicksKeepSpeedBounded(speed: real, deltas: seq<int>)
    requires speed >= 0.0 && DeltasInRange(deltas)
    ensures AfterTicks(Finite(speed), deltas).Finite?
    ensures AfterTicks(Finite(speed), deltas).value >= 0.0
    ensures -500.0 * |deltas| as real <= AfterTicks(Finite(speed), deltas).value - speed
                                      <= 500.0 * |deltas| as real
  {
    if deltas != [] {
      var init := deltas[..|deltas| - 1];
      assert DeltasInRange(init) by {
        forall i | 0 <= i < |init| ensures -500 <= init[i] < 500 {
          assert init[i] == deltas[i];
        }
      }
      TicksKeepSpeedBounded(speed, init);
    }
  }

  // ---------------------------------------------------------------------
  // Transitions
  // ---------------------------------------------------------------------

  /** What every reachable machine satisfies: the progress is a valid
      percentage and the token source and update task refer to loops that
      were started. */
  predicate Consistent(m: Machine) {
    && ValidProgress(m.counters.progress)
    && (m.lifecycle.tokenSource.Some? ==> m.lifecycle.tokenSource.value < |m.lifecycle.cancelRequested|)
    && (m.lifecycle.updateTask.Some? ==> m.lifecycle.updateTask.value < |m.lifecycle.cancelRequested|)
  }

  /** Loop `i` is the current one and its token has not been cancelled. */
  predicate LoopRunning(m: Machine, i: nat) {
    && i < |m.lifecycle.cancelRequested|
    && !m.lifecycle.cancelRequested[i]
    && m.lifecycle.tokenSource == Some(i)
    && m.lifecycle.updateTask == Some(i)
  }

  /** `StartMachine`: the machine is Running and a new update loop with a
      fresh token has been started. Earlier tokens are left as they were. */
  function AfterStart(m: Machine): (r: Machine)
    requires Consistent(m)
    ensures Consistent(r) && r.status == Running
    ensures LoopRunning(r, |m.lifecycle.cancelRequested|)
    ensures r.lifecycle.cancelRequested[..|m.lifecycle.cancelRequested|] == m.lifecycle.cancelRequested
    ensures r.(status := m.status, lifecycle := m.lifecycle) == m
  {
    var n := |m.lifecycle.cancelRequested|;
    m.(status := Running,
       lifecycle := Lifecycle(m.lifecycle.cancelRequested + [false], Some(n), Some(n)))
  }

  /** `StopMachine`: a stopped machine is left exactly as it is; any other
      machine becomes Stopped, the token the machine holds (if any) is
      cancelled, no other token is touched, and the update task is dropped. */
  function AfterStop(m: Machine): (r: Machine)
    requires Consistent(m)
    ensures Consistent(r) && r.status == Stopped
    ensures m.status == Stopped ==> r == m
    ensures m.status != Stopped ==>
              && r.lifecycle.tokenSource == m.lifecycle.tokenSource
              && r.lifecycle.updateTask == None
              && |r.lifecycle.cancelRequested| == |m.lifecycle.cancelRequested|
              && forall i :: 0 <= i < |m.lifecycle.cancelRequested| ==>
                   r.lifecycle.cancelRequested[i] ==
                   (m.lifecycle.cancelRequested[i] || m.lifecycle.tokenSource == Some(i))
    ensures r.(status := m.status, lifecycle := m.lifecycle) == m
  {
    if m.status == Stopped then m
    else
      var flags := m.lifecycle.cancelRequested;
      var cancelled := if m.lifecycle.tokenSource.Some? then flags[m.lifecycle.tokenSource.value := true] else flags;
      m.(status := Stopped, lifecycle := Lifecycle(cancelled, m.lifecycle.tokenSource, None))
  }

  /** `EnterMaintainanceMode`: a stopped machine is left as it is; any other
      machine enters Maintenance. Nothing but the status changes. */
  function AfterMaintenance(m: Machine): (r: Machine)
    ensures m.status == Stopped ==> r == m
    ensures m.status != Stopped ==> r.status == Maintenance
    ensures r.(status := m.status) == m
  {
    m.(status := MaintenanceRequested(m.status))
  }

  /** `ResetCounters`: all three part counters and the progress are zero. */
  function AfterCounterReset(m: Machine): (r: Machine)
    ensures r.counters == Zeroed && ValidProgress(r.counters.progress)
    ensures r.(counters := m.counters) == m
  {
    m.(counters := Zeroed)
  }

  /** `ResetHomeAxis`: the three axes are back at the origin. */
  function AfterAxisReset(m: Machine): (r: Machine)
    ensures r.axes == Axes(0.0, 0.0, 0.0)
    ensures r.(axes := m.axes) == m
  {
    m.(axes := Axes(0.0, 0.0, 0.0))
  }

  /** `LoadProductionOrder`: the order, article and targets are the given
      ones and the counters are zero. The target quantity is not kept. */
  function AfterOrderLoad(m: Machine, order: string, article: string, targets: Targets): (r: Machine)
    ensures r.productionOrder == order && r.article == article && r.targets == targets
    ensures r.counters == Zeroed
    ensures r.(productionOrder := m.productionOrder, article := m.article,
               targets := m.targets, counters := m.counters) == m
  {
    AfterCounterReset(m.(productionOrder := order, article := article, targets := targets))
  }

  /** `ToolChange`: the current tool is the given one. */
  function AfterToolChange(m: Machine, tool: string): (r: Machine)
    ensures r.toolNumber == Some(tool)
    ensures r.(toolNumber := m.toolNumber) == m
  {
    m.(toolNumber := Some(tool))
  }

  /** The `ProductionOrderProgress` setter: the rounded, clamped value is
      stored, or the exception is thrown and nothing changes. */
  function AfterProgressSet(m: Machine, v: Double): (r: Result<Machine, Error>)
    requires Consistent(m)
    ensures r.Failure? <==> !v.Finite?
    ensures r.Success? ==> Consistent(r.value) && r.value.(counters := m.counters) == m
    ensures r.Success? ==> r.value.counters == m.counters.(progress := ProgressValue(v).value)
  {
    match ProgressValue(v)
    case Success(p) => Success(m.(counters := m.counters.(progress := p)))
    case Failure(e) => Failure(e)
  }

  /** One iteration of the update loop: only the spindle speed changes. */
  function AfterTick(m: Machine, delta: int): (r: Machine)
    ensures r.spindleSpeed == NextSpindleSpeed(m.spindleSpeed, delta)
    ensures r.(spindleSpeed := m.spindleSpeed) == m
  {
    m.(spindleSpeed := NextSpindleSpeed(m.spindleSpeed, delta))
  }

  // ---------------------------------------------------------------------
  // The entity
  // ---------------------------------------------------------------------

  /** A machine's `MachineStateChanged` event: the state delivered by each
      raise, in order, and the number of registered handlers. */
  class StateChangedEvent {
    var raised: seq<Machine>
    var handlers: nat

    constructor ()
      ensures raised == [] && handlers == 0
    {
      raised, handlers := [], 0;
    }

    /** `MachineStateChanged?.Invoke()` with the machine in state `m`. */
    method Raise(m: Machine)
      modifies this
      ensures raised == old(raised) + [m] && handlers == old(handlers)
    {
      raised := raised + [m];
    }

    /** `MachineStateChanged += handler`. */
    method Subscribe()
      modifies this`handlers
      ensures handlers == old(handlers) + 1 && raised == old(raised)
    {
      handlers := handlers + 1;
    }
  }

  class CncMachine {
    // Identification
    const name: string
    const serialNumber: string
    const plant: string
    const productionSegment: string
    const productionLine: string
    // Current production
    var productionOrder: string
    var article: string
    // Status
    var status: MachineStatus
    var phase: MachinePhase
    // Live telemetry
    var actualSpindleSpeed: Double
    const actualFeedRate: string
    const coolantTemperature: string
    const actualCycleTime: string
    // Production counters; the progress is only written through its setter
    var goodParts: real
    var badParts: real
    var totalParts: real
    var productionOrderProgress: real
    // Private setpoints, tooling and axes
    var targets: Targets
    var currentToolNumber: Option<string>
    var axes: Axes
    // Update loops
    var cancelRequested: seq<bool>
    var tokenSource: Option<nat>
    var updateTask: Option<nat>
    /** The `MachineStateChanged` event. */
    const machineStateChanged: StateChangedEvent

    function View(): Machine
      reads this
    {
      Machine(
        Identity(name, serialNumber, plant, productionSegment, productionLine),
        productionOrder, article, status, phase,
        actualSpindleSpeed, actualFeedRate, coolantTemperature, actualCycleTime,
        Counters(goodParts, badParts, totalParts, productionOrderProgress),
        targets,
        currentToolNumber,
        axes,
        Lifecycle(cancelRequested, tokenSource, updateTask))
    }

    predicate Valid()
      reads this
    {
      Consistent(View())
    }

    constructor ()
      ensures View() == Initial && Valid()
      ensures fresh(machineStateChanged)
      ensures machineStateChanged.raised == [] && machineStateChanged.handlers == 0
    {
      name, serialNumber, plant := "PrecisionCraft VMC-850 #3", "VMC850-2023-003", "Munich Precision Manufacturing";
      productionSegment, productionLine := "Aerospace Components", "5-Axis Machining Cell C";
      productionOrder, article := "PO-2024-AERO-0876", "ART-TB-7075-T6";
      status, phase := Running, Roughing;
      actualSpindleSpeed, actualFeedRate := Finite(29487.0), "1198.5 mm/min";
      coolantTemperature, actualCycleTime := "22.5 °C", "73.2 seconds";
      goodParts, badParts, totalParts, productionOrderProgress := 0.0, 0.0, 0.0, 0.0;
      targets := Targets(None, None, None, None, None);
      currentToolNumber := None;
      axes := Axes(0.0, 0.0, 0.0);
      cancelRequested, tokenSource, updateTask := [], None, None;
      machineStateChanged := new StateChangedEvent();
    }

    /** Two notifications: the first while Starting, the second once
        Running but before the new update loop exists. The startup delay is
        not modelled. */
    method StartMachine()
      requires Valid()
      modifies this, machineStateChanged
      ensures View() == AfterStart(old(View())) && Valid()
      ensures machineStateChanged.raised == old(machineStateChanged.raised) + [old(View()).(status := Starting),
                                                                       old(View()).(status := Running)]
      ensures machineStateChanged.handlers == old(machineStateChanged.handlers)
    {
      ghost var before := View();
      status := Starting;
      assert View() == before.(status := Starting);
      machineStateChanged.Raise(View());
      status := Running;
      assert View() == before.(status := Running);
      machineStateChanged.Raise(View());
      var n := |cancelRequested|;
      cancelRequested, tokenSource, updateTask := cancelRequested + [false], Some(n), Some(n);
    }

    /** No notification in either branch. */
    method StopMachine()
      requires Valid()
      modifies this, machineStateChanged
      ensures View() == AfterStop(old(View())) && Valid()
      ensures machineStateChanged.raised == old(machineStateChanged.raised)
      ensures machineStateChanged.handlers == old(machineStateChanged.handlers)
    {
      if status == Stopped {
        return;
      }
      status := Stopped;
      if tokenSource.Some? {
        cancelRequested := cancelRequested[tokenSource.value := true];
      }
      updateTask := None;
    }

    /** No notification in either branch. */
    method EnterMaintainanceMode()
      requires Valid()
      modifies this, machineStateChanged
      ensures View() == AfterMaintenance(old(View())) && Valid()
      ensures machineStateChanged.raised == old(machineStateChanged.raised)
      ensures machineStateChanged.handlers == old(machineStateChanged.handlers)
    {
      if status == Stopped {
        return;
      }
      status := Maintenance;
    }

    /** The `ProductionOrderProgress` setter. */
    method SetProductionOrderProgress(value: Double) returns (r: Outcome<Error>)
      requires Valid()
      modifies this, machineStateChanged
      ensures Valid()
      ensures AfterProgressSet(old(View()), value).Success? ==>
                r == Pass && View() == AfterProgressSet(old(View()), value).value
      ensures AfterProgressSet(old(View()), value).Failure? ==>
                r == Fail(AfterProgressSet(old(View()), value).error) && View() == old(View())
      ensures machineStateChanged.raised == old(machineStateChanged.raised)
      ensures machineStateChanged.handlers == old(machineStateChanged.handlers)
    {
      if !value.Finite? {
        return Fail(ArgumentException("ProductionOrderProgress must be a finite number."));
      }
      var clamped := Clamp(value.value);
      productionOrderProgress := RoundHundredths(clamped);
      return Pass;
    }

    /** One notification, after all four counters are zero. */
    method ResetCounters()
      requires Valid()
      modifies this, machineStateChanged
      ensures View() == AfterCounterReset(old(View())) && Valid()
      ensures machineStateChanged.raised == old(machineStateChanged.raised) + [View()]
      ensures machineStateChanged.handlers == old(machineStateChanged.handlers)
    {
      goodParts := 0.0;
      badParts := 0.0;
      totalParts := 0.0;
      var _ := SetProductionOrderProgress(Finite(0.0));
      machineStateChanged.Raise(View());
    }

    /** One notification, after the axes are at the origin. */
    method ResetHomeAxis()
      requires Valid()
      modifies this, machineStateChanged
      ensures View() == AfterAxisReset(old(View())) && Valid()
      ensures machineStateChanged.raised == old(machineStateChanged.raised) + [View()]
      ensures machineStateChanged.handlers == old(machineStateChanged.handlers)
    {
      axes := axes.(x := 0.0, y := 0.0, z := 0.0);
      machineStateChanged.Raise(View());
    }

    /** Stores the order, article and targets, then resets the counters,
        which raises the one notification. `targetQuantity` is not stored. */
    method LoadProductionOrder(orderNumber: string, article: string, targetQuantity: int,
                               targetSpindleSpeed: Double, targetFeedRate: Double,
                               targetSurfaceFinish: Double, targetCycleTime: Double,
                               targetCoolantFlow: Double)
      requires Valid()
      modifies this, machineStateChanged
      ensures View() == AfterOrderLoad(old(View()), orderNumber, article,
                                    Targets(Some(targetSpindleSpeed), Some(targetFeedRate),
                                            Some(targetSurfaceFinish), Some(targetCycleTime),
                                            Some(targetCoolantFlow)))
      ensures Valid()
      ensures machineStateChanged.raised == old(machineStateChanged.raised) + [View()]
      ensures machineStateChanged.handlers == old(machineStateChanged.handlers)
    {
      productionOrder := orderNumber;
      this.article := article;
      targets := targets.(spindleSpeed := Some(targetSpindleSpeed), feedRate := Some(targetFeedRate),
                          surfaceFinish := Some(targetSurfaceFinish), cycleTime := Some(targetCycleTime),
                          coolantFlow := Some(targetCoolantFlow));
      assert View() == old(View()).(productionOrder := orderNumber, article := article,
                                    targets := Targets(Some(targetSpindleSpeed), Some(targetFeedRate),
                                                       Some(targetSurfaceFinish), Some(targetCycleTime),
                                                       Some(targetCoolantFlow)));
      ResetCounters();
    }

    /** One notification, after the tool is recorded. */
    method ToolChange(toolNumber: string)
      requires Valid()
      modifies this, machineStateChanged
      ensures View() == AfterToolChange(old(View()), toolNumber) && Valid()
      ensures machineStateChanged.raised == old(machineStateChanged.raised) + [View()]
      ensures machineStateChanged.handlers == old(machineStateChanged.handlers)
    {
      currentToolNumber := Some(toolNumber);
      machineStateChanged.Raise(View());
    }

    /** One iteration of `Update` for the loop observing token `loop`, with
        `delta` the value `rand.Next(-500, 500)` returned: when the token is
        cancelled the loop has ended and nothing happens; otherwise the
        speed is updated and one notification follows. */
    method Tick(loop: nat, delta: int) returns (ran: bool)
      requires Valid() && loop < |cancelRequested| && -500 <= delta < 500
      modifies this, machineStateChanged
      ensures Valid()
      ensures ran <==> !old(cancelRequested[loop])
      ensures ran ==> View() == AfterTick(old(View()), delta) && machineStateChanged.raised == old(machineStateChanged.raised) + [View()]
      ensures !ran ==> View() == old(View()) && machineStateChanged.raised == old(machineStateChanged.raised)
      ensures machineStateChanged.handlers == old(machineStateChanged.handlers)
    {
      if cancelRequested[loop] {
        return false;
      }
      actualSpindleSpeed := NextSpindleSpeed(actualSpindleSpeed, delta);
      machineStateChanged.Raise(View());
      return true;
    }

    /** The first |deltas| iterations of `Update` for the loop observing
        token `loop`, when nothing cancels that token in the meantime. */
    method Update(loop: nat, deltas: seq<int>)
      requires Valid() && loop < |cancelRequested| && !cancelRequested[loop]
      requires DeltasInRange(deltas)
      modifies this, machineStateChanged
      ensures Valid()
      ensures View() == old(View()).(spindleSpeed := AfterTicks(old(actualSpindleSpeed), deltas))
      ensures |machineStateChanged.raised| == |old(machineStateChanged.raised)| + |deltas|
      ensures machineStateChanged.raised[..|old(machineStateChanged.raised)|] == old(machineStateChanged.raised)
      ensures forall k :: |old(machineStateChanged.raised)| <= k < |machineStateChanged.raised| ==>
                machineStateChanged.raised[k] ==
                old(View()).(spindleSpeed := AfterTicks(old(actualSpindleSpeed),
                                                        deltas[..k - |old(machineStateChanged.raised)| + 1]))
      ensures machineStateChanged.handlers == old(machineStateChanged.handlers)
    {
      ghost var before := |machineStateChanged.raised|;
      var i := 0;
      while i < |deltas| && !cancelRequested[loop]
        invariant 0 <= i <= |deltas|
        invariant Valid() && loop < |cancelRequested| && !cancelRequested[loop]
        invariant View() == old(View()).(spindleSpeed := AfterTicks(old(actualSpindleSpeed), deltas[..i]))
        invariant |machineStateChanged.raised| == before + i
        invariant machineStateChanged.raised[..before] == old(machineStateChanged.raised)
        invariant forall k :: before <= k < |machineStateChanged.raised| ==>
                    machineStateChanged.raised[k] ==
                    old(View()).(spindleSpeed := AfterTicks(old(actualSpindleSpeed), deltas[..k - before + 1]))
        invariant machineStateChanged.handlers == old(machineStateChanged.handlers)
      {
        assert deltas[..i + 1][..i] == deltas[..i];
        var _ := Tick(loop, deltas[i]);
        i := i + 1;
      }
      assert deltas[..i] == deltas;
    }
  }

  // ---------------------------------------------------------------------
  // Properties
  // ---------------------------------------------------------------------

  /** A new machine is consistent, Running, roughing, and has no loop. */
  lemma InitialMachine()
    ensures Consistent(Initial) && Initial.status == Running && Initial.phase == Roughing
    ensures Initial.lifecycle.updateTask == None && Initial.lifecycle.tokenSource == None
  {
    assert IsHundredths(0.0);
  }

  /** Stopping twice is stopping once. */
  lemma StopIsIdempotent(m: Machine)
    requires Consistent(m)
    ensures AfterStop(AfterStop(m)) == AfterStop(m)
  {
  }

  /** Entering maintenance twice is entering it once, and it never leaves
      the Stopped status. */
  lemma MaintenanceIsIdempotent(m: Machine)
    ensures AfterMaintenance(AfterMaintenance(m)) == AfterMaintenance(m)
    ensures AfterMaintenance(m).status == Maintenance <==> m.status != Stopped
  {
  }

  /** Stopping a started machine cancels the loop that start began, so that
      loop's next iteration does nothing. */
  lemma StopCancelsLoopOfLastStart(m: Machine)
    requires Consistent(m)
    ensures var r := AfterStop(AfterStart(m));
            && r.status == Stopped
            && r.lifecycle.cancelRequested[|m.lifecycle.cancelRequested|]
            && r.lifecycle.updateTask == None
  {
  }

  /** Starting a machine twice and then stopping it cancels only the second
      loop: the loop begun by the first start is never cancelled, because
      the second start replaces the token source without cancelling it. */
  lemma RestartLeavesEarlierLoopRunning(m: Machine)
    requires Consistent(m)
    ensures var n := |m.lifecycle.cancelRequested|;
            var r := AfterStop(AfterStart(AfterStart(m)));
            && |r.lifecycle.cancelRequested| == n + 2
            && !r.lifecycle.cancelRequested[n]
            && r.lifecycle.cancelRequested[n + 1]
  {
    var n := |m.lifecycle.cancelRequested|;
    var s := AfterStart(AfterStart(m));
    assert s.lifecycle.tokenSource == Some(n + 1);
    assert !s.lifecycle.cancelRequested[n];
  }

  /** An operation on a machine, as any caller or its own update loop may
      perform it. */
  datatype Action =
    | Start
    | Stop
    | EnterMaintenance
    | ResetCounters
    | ResetHomeAxis
    | LoadOrder(order: string, article: string, targets: Targets)
    | ChangeTool(tool: string)
    | SetProgress(value: Double)
    | UpdateSpeed(delta: int)

  /** The machine after one operation; a progress write the setter refuses
      leaves it unchanged. */
  function Step(m: Machine, a: Action): (r: Machine)
    requires Consistent(m)
    ensures Consistent(r)
  {
    match a
    case Start => AfterStart(m)
    case Stop => AfterStop(m)
    case EnterMaintenance => AfterMaintenance(m)
    case ResetCounters => AfterCounterReset(m)
    case ResetHomeAxis => AfterAxisReset(m)
    case LoadOrder(order, article, targets) => AfterOrderLoad(m, order, article, targets)
    case ChangeTool(tool) => AfterToolChange(m, tool)
    case SetProgress(v) => if AfterProgressSet(m, v).Success? then AfterProgressSet(m, v).value else m
    case UpdateSpeed(delta) => AfterTick(m, delta)
  }

  /** The machine after a sequence of operations, in order. */
  function Steps(m: Machine, actions: seq<Action>): (r: Machine)
    requires Consistent(m)
    ensures Consistent(r)
  {
    if actions == [] then m else Step(Steps(m, actions[..|actions| - 1]), actions[|actions| - 1])
  }

  /** Loop `i` was started, is not cancelled, and the machine no longer holds
      its token: nothing the machine does can reach it any more. */
  predicate Abandoned(m: Machine, i: nat) {
    && i < |m.lifecycle.cancelRequested|
    && !m.lifecycle.cancelRequested[i]
    && m.lifecycle.tokenSource != Some(i)
  }

  /** No operation cancels an abandoned loop or takes its token back. */
  lemma StepKeepsAbandoned(m: Machine, a: Action, i: nat)
    requires Consistent(m) && Abandoned(m, i)
    ensures Abandoned(Step(m, a), i)
  {
    if a == Stop && m.status != Stopped {
      assert Step(m, a).lifecycle.cancelRequested[i] == m.lifecycle.cancelRequested[i];
    }
  }

  /** An abandoned loop stays abandoned whatever sequence of operations follows. */
  lemma {:induction false} StepsKeepAbandoned(m: Machine, actions: seq<Action>, i: nat)
    requires Consistent(m) && Abandoned(m, i)
    ensures Abandoned(Steps(m, actions), i)
  {
    if actions != [] {
      StepsKeepAbandoned(m, actions[..|actions| - 1], i);
      StepKeepsAbandoned(Steps(m, actions[..|actions| - 1]), actions[|actions| - 1], i);
    }
  }

  /** `StartMachine` is not idempotent: after a second start, the loop of the
      first one is never cancelled by any later sequence of operations. */
  lemma RestartLoopIsNeverCancelled(m: Machine, actions: seq<Action>)
    requires Consistent(m)
    ensures var n := |m.lifecycle.cancelRequested|;
            var r := Steps(AfterStart(AfterStart(m)), actions);
            n < |r.lifecycle.cancelRequested| && !r.lifecycle.cancelRequested[n]
  {
    var n := |m.lifecycle.cancelRequested|;
    var s := AfterStart(AfterStart(m));
    assert s.lifecycle.tokenSource == Some(n + 1);
    assert Abandoned(s, n);
    StepsKeepAbandoned(s, actions, n);
  }

  /** Loading an order twice with the same data is loading it once, and the
      order's counters start from zero whatever the machine had counted. */
  lemma OrderLoadIsIdempotent(m: Machine, order: string, article: string, targets: Targets)
    ensures AfterOrderLoad(AfterOrderLoad(m, order, article, targets), order, article, targets)
            == AfterOrderLoad(m, order, article, targets)
  {
  }

  /** Setting the progress to a value it can hold stores that value; setting
      it again to what it reads back changes nothing. */
  lemma ProgressSetReadsBack(m: Machine, p: real)
    requires Consistent(m) && ValidProgress(p)
    ensures AfterProgressSet(m, Finite(p)).Success?
    ensures AfterProgressSet(m, Finite(p)).value.counters.progress == p
    ensures AfterProgressSet(m, Finite(m.counters.progress)) == Success(m)
  {
  }
}
