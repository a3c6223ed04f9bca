/**
 * The machine the OPC UA side and the telemetry agent were written against
 * (`OpcUa.machines.CncMachine`): identity, phase and a status with three
 * guarded transitions. It raises no notifications.
 */
module OpcUaMachines {
  import opened MachineTypes

  /** The observable state of one machine. */
  datatype Machine = Machine(
    id: string,
    name: string,
    plant: string,
    serialNumber: string,
    productionSegment: string,
    productionLine: string,
    phase: MachinePhase,
    status: MachineStatus)

  /** The operations a client can invoke. */
  datatype Command = Start | Stop | EnterMaintenance

  /** The state after one operation. */
  function Apply(m: Machine, c: Command): (r: Machine)
    ensures r.(status := m.status) == m
    ensures c == Start ==> r.status == Running
    ensures c == Stop ==> r.status == Stopped
    ensures c == EnterMaintenance ==> r.status == MaintenanceRequested(m.status)
    ensures m.status == Stopped && c != Start ==> r == m
  {
    match c
    case Start => m.(status := Running)
    case Stop => if m.status == Stopped then m else m.(status := Stopped)
    case EnterMaintenance => if m.status == Stopped then m else m.(status := Maintenance)
  }

  /** The state after a sequence of operations, in order. */
  function ApplyAll(m: Machine, cs: seq<Command>): Machine {
    if cs == [] then m else Apply(ApplyAll(m, cs[..|cs| - 1]), cs[|cs| - 1])
  }

  class CncMachine {
    /** `Id`: a fresh GUID in the source; the caller supplies it here. */
    const id: string
    var name: string
    var plant: string
    var serialNumber: string
    var productionSegment: string
    var productionLine: string
    var phase: MachinePhase
    var status: MachineStatus

    function View(): Machine
      reads this
    {
      Machine(id, name, plant, serialNumber, productionSegment, productionLine, phase, status)
    }

    /** A new machine is Running and roughing, with the fixed identity. */
    constructor (id: string)
      ensures View() == Machine(id, "PrecisionCraft VMC-850 #3", "Sulz City", "VMC850-2023-003",
                                "Aerospace Components", "5-Axis Machining Cell C", Roughing, Running)
    {
      this.id := id;
      name, plant, serialNumber := "PrecisionCraft VMC-850 #3", "Sulz City", "VMC850-2023-003";
      productionSegment, productionLine := "Aerospace Components", "5-Axis Machining Cell C";
      phase, status := Roughing, Running;
    }

    /** Running, from any status. */
    method StartMachine()
      modifies this
      ensures View() == Apply(old(View()), Start)
    {
      status := Running;
    }

    /** Stopped; a stopped machine is not touched. */
    method StopMachine()
      modifies this
      ensures View() == Apply(old(View()), Stop)
    {
      if status == Stopped {
        return;
      }
      status := Stopped;
    }

    /** Maintenance; a stopped machine is not touched. */
    method EnterMaintainanceMode()
      modifies this
      ensures View() == Apply(old(View()), EnterMaintenance)
    {
      if status == Stopped {
        return;
      }
      status := Maintenance;
    }
  }

  /** Stop and EnterMaintenance are idempotent; Start is too. */
  lemma CommandsAreIdempotent(m: Machine, c: Command)
    ensures Apply(Apply(m, c), c) == Apply(m, c)
  {
  }

  /** No sequence of operations changes anything but the status. */
  lemma {:induction false} OnlyStatusChanges(m: Machine, cs: seq<Command>)
    ensures ApplyAll(m, cs).(status := m.status) == m
  {
    if cs != [] {
      OnlyStatusChanges(m, cs[..|cs| - 1]);
    }
  }

  /** A stopped machine only leaves Stopped through StartMachine: without a
      Start, no sequence of operations changes it at all; in particular it
      never reaches Maintenance. */
  lemma {:induction false} StoppedStaysStoppedWithoutStart(m: Machine, cs: seq<Command>)
    requires m.status == Stopped
    requires forall i :: 0 <= i < |cs| ==> cs[i] != Start
    ensures ApplyAll(m, cs) == m
  {
    if cs != [] {
      StoppedStaysStoppedWithoutStart(m, cs[..|cs| - 1]);
    }
  }

  /** The status after any sequence is decided by its last Start or Stop:
      Maintenance is reached only when the machine was not stopped by then. */
  lemma {:induction false} MaintenanceNeedsRunningOrStartedMachine(m: Machine, cs: seq<Command>)
    requires ApplyAll(m, cs).status == Maintenance
    ensures m.status != Stopped || Start in cs
  {
    if m.status == Stopped && Start !in cs {
      StoppedStaysStoppedWithoutStart(m, cs);
    }
  }
}
