/**
 * The minimal machine the OPC UA server project holds
 * (`OpcUa.server.CncMachine`): a spindle speed and a running flag.
 */
module OpcUaServer {

  class CncMachine {
    var spindleSpeed: real
    var isRunning: bool

    constructor ()
      ensures spindleSpeed == 1000.0 && !isRunning
    {
      spindleSpeed := 1000.0;
      isRunning := false;
    }

    /** Runs at 1500 whatever the machine did before, so starting twice is
        starting once. */
    method Start()
      modifies this
      ensures spindleSpeed == 1500.0 && isRunning
    {
      spindleSpeed := 1500.0;
      isRunning := true;
    }

    /** Not running; the speed keeps its value. */
    method Stop()
      modifies this
      ensures !isRunning && spindleSpeed == old(spindleSpeed)
    {
      isRunning := false;
    }
  }

  /** Starting then stopping any machine leaves it idle at 1500, whatever its
      state before. */
  method StartThenStop(m: CncMachine)
    modifies m
    ensures m.spindleSpeed == 1500.0 && !m.isRunning
  {
    m.Start();
    m.Stop();
  }
}
