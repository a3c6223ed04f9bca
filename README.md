# SimLink machine models and telemetry agent

SimLink simulates a CNC machine, exposes it over OPC UA and mirrors its
state to an MQTT broker. This project models four parts of it in Dafny and
proves properties of them:

- `machine_domain.dfy`: the domain machine (`MachineDomain.CncMachine`). It covers:
  - its status machine (start, stop, maintenance);
  - counter and axis resets, the production-order loader and the tool change;
  - the clamped and rounded progress setter;
  - one iteration of the telemetry update loop, and the loop itself;
  - the `MachineStateChanged` notifications each action raises.

  The class keeps the machine's fields. Each method is proved to move the
  machine's value (`View()`) by a pure transition function (`AfterStart`,
  `AfterStop`, ...), and the lemmas state what those functions promise.
  A cancellation token is one entry of `cancelRequested`. `tokenSource`
  and `updateTask` say which token the machine holds and which loop it
  tracks.
- `opcua_machines.dfy`: the simpler machine of the OPC UA side
  (`OpcUa.machines.CncMachine`). It has three guarded status transitions and
  raises no notifications.
- `opcua_server.dfy`: the two-field machine of the OPC UA server project
  (`OpcUa.server.CncMachine`).
- `opc_agent.dfy`: the telemetry agent (`MqttBroker.Services.OpcAgent`).
  - For each machine it publishes a snapshot of six metrics, one message per
    metric under `pohl-industries/<plant>/machines/<serial>/telemetry/<key>`.
  - It then registers a handler on the machine's change event.
  - A failed publish is logged and the next metric is still sent.
  - A machine whose snapshot throws is logged and gets no handler, and the
    other machines are still processed.
  - The broker client is a class whose publish may fail on any call.

`machine_types.dfy` holds the shared enumerations, the model of a C#
`double` (a real, NaN or an infinity) and the exceptions. `wrappers.dfy`
holds `Option`, `Result` and `Outcome`.

### Behaviour of the code worth knowing

- **Restart.** `StartMachine` is not idempotent. It replaces the
  cancellation token source without cancelling the old one
  (MachineDomain/CncMachine.cs:100-102). After a second start, no later
  sequence of operations ever cancels the first update loop's token.
  `RestartLoopIsNeverCancelled` proves this for every sequence of
  operations, and `RestartLeavesEarlierLoopRunning` shows the case of a
  single later stop.
- **Notifications.** Not every state change raises exactly one
  notification. `StartMachine` raises two. `StopMachine` and
  `EnterMaintainanceMode` raise none, even when they change the status.
- **Agent machine type.** The agent is written against
  `OpcUa.machines.CncMachine`. That class keeps `SerialNumber` private and
  has neither `SpindleSpeed` nor `MachineStateChanged`. The model
  therefore gives the agent `MachineDomain.CncMachine` and reads its
  `SerialNumber` and `ActualSpindleSpeed`.
- **Topic ambiguity.** Topics do not escape the plant or the serial number.
  Two machines whose plant and serial number contain `/` can share a topic
  (`SlashesMergeMachines`). Without slashes a topic names one machine and
  one metric (`TopicsSeparateMachines`).

## Model

| member | source | states |
|---|---|---|
| MachineTypes.StatusName | MqttBroker/Services/OpcAgent.cs:58 | a status is published by its non-empty symbolic name |
| MachineTypes.PhaseName | MqttBroker/Services/OpcAgent.cs:59 | a phase is published by its non-empty symbolic name |
| MachineTypes.StatusNameInjective | MqttBroker/Services/OpcAgent.cs:58 | two statuses have the same published name if and only if they are the same status |
| MachineTypes.PhaseNameInjective | MqttBroker/Services/OpcAgent.cs:59 | two phases have the same published name if and only if they are the same phase |
| MachineTypes.MaintenanceRequested | MachineDomain/CncMachine.cs:115-121 | the status after a maintenance request is Stopped exactly when it was Stopped, and Maintenance exactly otherwise |
| MachineDomain.Clamp | MachineDomain/CncMachine.cs:48 | the clamped value lies in [0, 100] and a value already there is kept |
| MachineDomain.RoundHundredths | MachineDomain/CncMachine.cs:50 | the result is a whole number of hundredths within half a hundredth of the input, stays in [0, 100] for inputs there, and a value already in hundredths is kept |
| MachineDomain.ProgressValue | MachineDomain/CncMachine.cs:40-51 | the setter fails exactly for NaN and the infinities; otherwise the stored value is a valid percentage in hundredths within half a hundredth of the clamped input, and a valid percentage is stored unchanged |
| MachineDomain.NextSpindleSpeed | MachineDomain/CncMachine.cs:167 | `max(0, speed + delta)`: a finite speed stays finite and non-negative, equals speed + delta when that is non-negative and 0 otherwise, and moves by less than 500 for a delta from `Next(-500, 500)` |
| MachineDomain.TicksKeepSpeedBounded | MachineDomain/CncMachine.cs:165-170 | from a finite non-negative speed, any number of iterations keeps the speed finite and non-negative, within 500 per iteration of where it began |
| MachineDomain.AfterStart | MachineDomain/CncMachine.cs:89-103 | the machine is Running with a new live loop holding a fresh token; earlier tokens and every other field are unchanged |
| MachineDomain.AfterStop | MachineDomain/CncMachine.cs:105-113 | a Stopped machine is unchanged; any other becomes Stopped, its held token and no other is cancelled, and the update task is cleared; nothing else changes |
| MachineDomain.AfterMaintenance | MachineDomain/CncMachine.cs:115-121 | a Stopped machine is unchanged, any other enters Maintenance, and only the status changes |
| MachineDomain.AfterCounterReset | MachineDomain/CncMachine.cs:123-130 | the three counters and the progress are zero and nothing else changes |
| MachineDomain.AfterAxisReset | MachineDomain/CncMachine.cs:131-137 | the three axes are at 0 and nothing else changes |
| MachineDomain.AfterOrderLoad | MachineDomain/CncMachine.cs:141-153 | order, article and the five targets are the given ones, the counters are zero, and nothing else changes |
| MachineDomain.AfterToolChange | MachineDomain/CncMachine.cs:155-159 | the current tool is the given one and nothing else changes |
| MachineDomain.AfterProgressSet | MachineDomain/CncMachine.cs:40-51 | fails exactly for non-finite input; otherwise only the progress changes, to the setter's value, and the machine stays consistent |
| MachineDomain.AfterTick | MachineDomain/CncMachine.cs:167 | only the spindle speed changes, to `max(0, speed + delta)` |
| MachineDomain.StateChangedEvent.constructor | MachineDomain/CncMachine.cs:87 | a new event has raised nothing and has no handlers |
| MachineDomain.StateChangedEvent.Raise | MachineDomain/CncMachine.cs:92 | one raise appends the machine's current state and keeps the handlers |
| MachineDomain.StateChangedEvent.Subscribe | MqttBroker/Services/OpcAgent.cs:31-34 | registering a handler adds one handler and raises nothing |
| MachineDomain.CncMachine.constructor | MachineDomain/CncMachine.cs:10-86 | a new machine has the initial identity, order and telemetry values, zero counters and axes, no targets, no tool and no loop, and a fresh event with nothing raised |
| MachineDomain.CncMachine.StartMachine | MachineDomain/CncMachine.cs:89-103 | the machine moves by `AfterStart` and exactly two notifications are raised, the first with the status Starting and the second with Running before the new loop exists |
| MachineDomain.CncMachine.StopMachine | MachineDomain/CncMachine.cs:105-113 | the machine moves by `AfterStop` and no notification is raised |
| MachineDomain.CncMachine.EnterMaintainanceMode | MachineDomain/CncMachine.cs:115-121 | the machine moves by `AfterMaintenance` and no notification is raised |
| MachineDomain.CncMachine.SetProductionOrderProgress | MachineDomain/CncMachine.cs:40-51 | a finite value stores the clamped, rounded progress; a non-finite one fails with the setter's exception and changes nothing; no notification either way |
| MachineDomain.CncMachine.ResetCounters | MachineDomain/CncMachine.cs:123-130 | the machine moves by `AfterCounterReset` and exactly one notification carries the reset state |
| MachineDomain.CncMachine.ResetHomeAxis | MachineDomain/CncMachine.cs:131-137 | the machine moves by `AfterAxisReset` and exactly one notification carries the new state |
| MachineDomain.CncMachine.LoadProductionOrder | MachineDomain/CncMachine.cs:141-153 | the machine moves by `AfterOrderLoad` with the five targets; the target quantity is not kept; exactly one notification is raised in total |
| MachineDomain.CncMachine.ToolChange | MachineDomain/CncMachine.cs:155-159 | the machine moves by `AfterToolChange` and exactly one notification is raised |
| MachineDomain.CncMachine.Tick | MachineDomain/CncMachine.cs:165-169 | the iteration runs if and only if its token is not cancelled; when it runs the machine moves by `AfterTick` and one notification follows, otherwise nothing changes |
| MachineDomain.CncMachine.Update | MachineDomain/CncMachine.cs:162-171 | an uncancelled loop's iterations change only the spindle speed, to `AfterTicks`, and raise one notification per iteration carrying the state after that iteration |
| MachineDomain.InitialMachine | MachineDomain/CncMachine.cs:10-86 | a new machine is consistent, Running and Roughing, with no token source and no update task |
| MachineDomain.StopIsIdempotent | MachineDomain/CncMachine.cs:105-113 | stopping twice is stopping once |
| MachineDomain.MaintenanceIsIdempotent | MachineDomain/CncMachine.cs:115-121 | entering maintenance twice is entering it once, and it yields Maintenance if and only if the machine was not Stopped |
| MachineDomain.StopCancelsLoopOfLastStart | MachineDomain/CncMachine.cs:100-112 | a stop after a start cancels the loop that start began and clears the update task |
| MachineDomain.RestartLeavesEarlierLoopRunning | MachineDomain/CncMachine.cs:100-111 | after start, start, stop, only the second loop is cancelled and the first is never cancelled |
| MachineDomain.Step | MachineDomain/CncMachine.cs:40-169 | every operation, including a refused progress write and a loop iteration, keeps a consistent machine consistent |
| MachineDomain.Steps | MachineDomain/CncMachine.cs:40-169 | any sequence of operations keeps a consistent machine consistent |
| MachineDomain.StepKeepsAbandoned | MachineDomain/CncMachine.cs:100-112 | no operation cancels the token of a loop the machine no longer holds, or takes that token back |
| MachineDomain.StepsKeepAbandoned | MachineDomain/CncMachine.cs:100-112 | a loop whose token the machine no longer holds stays uncancelled through any sequence of operations |
| MachineDomain.RestartLoopIsNeverCancelled | MachineDomain/CncMachine.cs:100-111 | after two starts, the first start's loop is never cancelled, whatever sequence of operations follows |
| MachineDomain.OrderLoadIsIdempotent | MachineDomain/CncMachine.cs:141-153 | loading the same order twice is loading it once |
| MachineDomain.ProgressSetReadsBack | MachineDomain/CncMachine.cs:40-51 | setting a valid percentage stores exactly that value, and setting the progress to its own value changes nothing |
| OpcUaMachines.Apply | OpcUa/machines/CncMachine.cs:17-36 | start yields Running; stop yields Stopped; maintenance yields Maintenance unless Stopped; a Stopped machine is unchanged by stop and maintenance; only the status ever changes |
| OpcUaMachines.CncMachine.constructor | OpcUa/machines/CncMachine.cs:5-15 | a new machine has the given id, the fixed identity, phase Roughing and status Running |
| OpcUaMachines.CncMachine.StartMachine | OpcUa/machines/CncMachine.cs:17-20 | the machine moves by `Apply(_, Start)` |
| OpcUaMachines.CncMachine.StopMachine | OpcUa/machines/CncMachine.cs:22-28 | the machine moves by `Apply(_, Stop)` |
| OpcUaMachines.CncMachine.EnterMaintainanceMode | OpcUa/machines/CncMachine.cs:30-36 | the machine moves by `Apply(_, EnterMaintenance)` |
| OpcUaMachines.CommandsAreIdempotent | OpcUa/machines/CncMachine.cs:17-36 | applying any of the three operations twice is applying it once |
| OpcUaMachines.OnlyStatusChanges | OpcUa/machines/CncMachine.cs:17-36 | no sequence of operations changes id, name, plant, serial number, segment, line or phase |
| OpcUaMachines.StoppedStaysStoppedWithoutStart | OpcUa/machines/CncMachine.cs:22-36 | without a start, no sequence of operations changes a Stopped machine |
| OpcUaMachines.MaintenanceNeedsRunningOrStartedMachine | OpcUa/machines/CncMachine.cs:17-36 | Maintenance is reached from a Stopped machine only through a start |
| OpcUaServer.CncMachine.constructor | OpcUa/server/CncMachine.cs:5-6 | a new machine has speed 1000 and is not running |
| OpcUaServer.CncMachine.Start | OpcUa/server/CncMachine.cs:8-12 | speed 1500 and running, whatever the state before |
| OpcUaServer.CncMachine.Stop | OpcUa/server/CncMachine.cs:14 | not running, speed unchanged |
| OpcUaServer.StartThenStop | OpcUa/server/CncMachine.cs:8-14 | start then stop leaves any machine at speed 1500, not running |
| MqttServices.ReadIsProjection | MqttBroker/Services/OpcAgent.cs:50-59 | what the agent reads is the machine's serial number, name, plant, spindle speed, status and phase |
| MqttServices.Topic | MqttBroker/Services/OpcAgent.cs:45-64 | every topic is `pohl-industries/` + plant + `/machines/` + serial + `/telemetry/` + key |
| MqttServices.TopicDeterminesKey | MqttBroker/Services/OpcAgent.cs:64 | for one machine, equal topics mean equal keys |
| MqttServices.TopicsSeparateMachines | MqttBroker/Services/OpcAgent.cs:45-64 | with slash-free plants and serials, equal topics mean equal plant, serial and key |
| MqttServices.SlashesMergeMachines | MqttBroker/Services/OpcAgent.cs:45 | two different machines whose plant or serial contains `/` can share a topic |
| MqttServices.Metrics | MqttBroker/Services/OpcAgent.cs:47-60 | a snapshot has exactly six entries |
| MqttServices.MetricKeysDistinct | MqttBroker/Services/OpcAgent.cs:47-60 | the six keys are pairwise distinct |
| MqttServices.LookupFindsFirst | MqttBroker/Services/OpcAgent.cs:47-60 | a key first occurring at position i is looked up to the value at position i |
| MqttServices.MetricValues | MqttBroker/Services/OpcAgent.cs:47-60 | each key holds its property: serial, name and plant as text, the spindle speed as a number, status and phase as symbolic names |
| MqttServices.Publications | MqttBroker/Services/OpcAgent.cs:62-64 | one message per dictionary entry |
| MqttServices.PublicationAt | MqttBroker/Services/OpcAgent.cs:62-64 | message i goes to the base topic extended by key i and carries value i |
| MqttServices.Snapshot | MqttBroker/Services/OpcAgent.cs:45-64 | a snapshot is six messages |
| MqttServices.SnapshotAt | MqttBroker/Services/OpcAgent.cs:45-64 | message i of a snapshot goes to the topic of key i and carries that key's value |
| MqttServices.SnapshotTopicsDistinct | MqttBroker/Services/OpcAgent.cs:47-64 | the six topics of a snapshot are pairwise distinct |
| MqttServices.Serialize | MqttBroker/Services/OpcAgent.cs:73-77 | serialising succeeds exactly for strings and finite numbers, keeps the value, and otherwise fails with the non-finite-number error |
| MqttServices.FirstUnserializable | MqttBroker/Services/OpcAgent.cs:62-77 | every message before the returned position can be serialised and the one at it cannot |
| MqttServices.AttemptedMessages | MqttBroker/Services/OpcAgent.cs:47-77 | serialisation stops a snapshot exactly at the spindle speed when it is not finite, and never otherwise |
| MqttServices.PublishLogAt | MqttBroker/Services/OpcAgent.cs:79-87 | one log line per publish call, in order: a success line with topic and payload, or an error line naming the machine's serial |
| MqttServices.Outgoing | MqttBroker/Services/OpcAgent.cs:62-88 | the number of messages of one snapshot that reach the client is all six, or three when the spindle speed is not finite |
| MqttServices.MachinesLogStep | MqttBroker/Services/OpcAgent.cs:23-40 | the log after one more machine is the log so far followed by that machine's publish lines and, when its snapshot threw, the error line naming it |
| MqttServices.PlannedPrefix | MqttBroker/Services/OpcAgent.cs:23-40 | the messages of the first m machines begin the messages of the first n |
| MqttServices.PlannedTurn | MqttBroker/Services/OpcAgent.cs:23-40 | in a run, machine k's messages come right after those of machines 0 to k - 1 and are what its own snapshot sends, whatever the earlier machines did |
| MqttServices.MachinesLogPrefix | MqttBroker/Services/OpcAgent.cs:23-40 | the log of the first m machines begins the log of the first n |
| MqttServices.SubscriptionsAt | MqttBroker/Services/OpcAgent.cs:28-34 | machine k gets a handler if and only if its snapshot was published without a throw |
| MqttServices.SentsAppend | MqttBroker/Services/OpcAgent.cs:62-88 | the messages of two runs of publish calls are those of the first, then those of the second |
| MqttServices.MqttClient.PublishAsync | MqttBroker/Services/OpcAgent.cs:81 | every publish call is recorded with its topic, payload and whether it returned or threw |
| MqttServices.OpcAgent.constructor | MqttBroker/Services/OpcAgent.cs:14-19 | the agent holds the given machines and client and has logged nothing |
| MqttServices.OpcAgent.PublishMetrics | MqttBroker/Services/OpcAgent.cs:62-88 | one publish call per entry, in order, up to the first payload that cannot be serialised; every call is logged as returned or failed; the method fails with the serialisation error exactly when it stopped early |
| MqttServices.OpcAgent.PublishSnapshot | MqttBroker/Services/OpcAgent.cs:43-89 | the calls carry the machine's snapshot messages up to the first unserialisable one; the method fails exactly when the spindle speed is not finite |
| MqttServices.OpcAgent.PublishMachine | MqttBroker/Services/OpcAgent.cs:25-39 | the snapshot is published first; a handler is then added if and only if nothing was thrown; otherwise the throw is logged with the machine's name; publishing raises no notification |
| MqttServices.OpcAgent.PublishMachines | MqttBroker/Services/OpcAgent.cs:21-41 | every machine takes its turn in order: the calls carry the messages of all turns and the log holds every turn's lines; machine i is subscribed if and only if its snapshot went out whole, whatever the other machines did; no machine's event raises a notification |

## Left out

- Threads and timing: `Task.Delay` in `StartMachine` and `Update`, `Task.Run`, and the background loop's concurrency with the other actions. One iteration of the loop is the `Tick` method, and the loop is `Update`.
- MachineDomain.CncMachine.Tick: a token cancelled during the iteration's one-second delay makes `Task.Delay` throw before the notification. The model checks the token once, at the start of the iteration.
- MachineDomain.CncMachine.Update: covers a loop whose token stays uncancelled for the iterations given. Cancellation from another thread is a concurrent action and is not modelled.
- `System.Random`: each delta of `rand.Next(-500, 500)` is a parameter with the precondition `-500 <= delta < 500`.
- Binary floating point: a finite `double` is a real. `Math.Round(x, 2, AwayFromZero)` is exact rounding to hundredths, and counters and axes are reals.
- The identity strings and the feed rate, coolant temperature and cycle time texts are constants. They are public settable properties, but nothing in the modelled code writes them.
- Private fields that nothing writes (actual coolant flow, surface finish, tool life and cutting forces) are not modelled.
- Handlers on `MachineStateChanged` are counted, not run: the snapshot a handler would publish on a later change is not modelled.
- JSON payloads: the timestamp (`DateTime.UtcNow`) and the camel-case layout are not modelled. A payload is the metric's value; only the refusal of NaN and the infinities is kept.
- Logging: a log line is a datatype value, not the formatted message or the exception object.
- The HiveMQ client: a publish is a call that either returns or throws, chosen freely. Whether the broker acknowledged a message and connection handling are not modelled.
- The agent's cancellation token: it is passed along in the source but never observed by the modelled code.
- `Id` of `OpcUa.machines.CncMachine` is a fresh GUID in the source; the constructor takes it as a parameter.
- MqttServices.OpcAgent.PublishMachines: its contract does not state the handler counts of the machines' events after the whole run. `PublishMachine` states the per-machine effect (one handler if and only if subscribed), and `subscribed` records which machines got one.
- The OPC UA server, its node manager, the hosted workers, settings records and dependency-injection wiring are not part of this model: they configure foreign libraries or do network and file I/O.
