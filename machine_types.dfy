/**
 * Types shared by the three machine classes and the telemetry agent:
 * the status and phase enumerations, IEEE doubles and the exceptions
 * the core throws.
 */
module MachineTypes {

  /** `MachineStatus`: the four members the core uses. */
  datatype MachineStatus = Stopped | Starting | Running | Maintenance

  /** `MachinePhase`: its declaration is not part of this model. Roughing is
      the one member the code names; Finishing and Idle stand for the rest. */
  datatype MachinePhase = Roughing | Finishing | Idle

  /** A C# `double`: a finite value or one of the non-finite ones. Binary
      rounding is not modelled: a finite double is a real. */
  datatype Double = Finite(value: real) | NaN | PositiveInfinity | NegativeInfinity

  /** The exceptions thrown by the core. */
  datatype Error =
    | ArgumentException(message: string)
    /** System.Text.Json refuses NaN and the infinities by default. */
    | NonFiniteNumberNotSupported

  /** `MachineStatus.ToString()`: the member's symbolic name. */
  function StatusName(s: MachineStatus): (name: string)
    ensures |name| > 0
  {
    match s
    case Stopped => "Stopped"
    case Starting => "Starting"
    case Running => "Running"
    case Maintenance => "Maintenance"
  }

  /** `MachinePhase.ToString()`: the member's symbolic name. */
  function PhaseName(p: MachinePhase): (name: string)
    ensures |name| > 0
  {
    match p
    case Roughing => "Roughing"
    case Finishing => "Finishing"
    case Idle => "Idle"
  }

  /** Different members have different names, so a published name identifies its member. */
  lemma StatusNameInjective(a: MachineStatus, b: MachineStatus)
    ensures StatusName(a) == StatusName(b) <==> a == b
  {
    if a != b {
      assert StatusName(a)[0] != StatusName(b)[0] || StatusName(a)[2] != StatusName(b)[2];
    }
  }

  lemma PhaseNameInjective(a: MachinePhase, b: MachinePhase)
    ensures PhaseName(a) == PhaseName(b) <==> a == b
  {
    if a != b {
      assert PhaseName(a)[0] != PhaseName(b)[0];
    }
  }

  /** The status after `EnterMaintainanceMode`: a stopped machine stays
      stopped, every other status becomes Maintenance. */
  function MaintenanceRequested(s: MachineStatus): (t: MachineStatus)
    ensures t == Stopped <==> s == Stopped
    ensures t == Maintenance <==> s != Stopped
  {
    if s == Stopped then s else Maintenance
  }
}
