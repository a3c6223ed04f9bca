/**
 * The telemetry agent (`MqttBroker.Services.OpcAgent`): for every machine it
 * publishes a snapshot of six metrics, one MQTT message per metric under
 * `pohl-industries/<plant>/machines/<serial>/telemetry/<key>`, and then
 * registers a handler on the machine's change event.
 *
 * The machines are `MachineDomain.CncMachine` entities. The broker is an
 * `MqttClient` whose publish may fail on any call.
 */
module MqttServices {
  import opened Wrappers
  import opened MachineTypes
  import MachineDomain

  /** The properties of a machine the agent reads. */
  datatype Reading = Reading(serialNumber: string, name: string, plant: string,
                             spindleSpeed: Double, status: MachineStatus, phase: MachinePhase)

  /** The reading of a machine's state. */
  function ReadingOf(m: MachineDomain.Machine): Reading {
    Reading(m.identity.serialNumber, m.identity.name, m.identity.plant, m.spindleSpeed, m.status, m.phase)
  }

  /** Reading a machine's properties; only the spindle speed, status and
      phase of a machine change. */
  function Read(machine: MachineDomain.CncMachine): (r: Reading)
    reads machine`actualSpindleSpeed, machine`status, machine`phase
  {
    Reading(machine.serialNumber, machine.name, machine.plant, machine.actualSpindleSpeed, machine.status, machine.phase)
  }

  /** The agent sees the machine as the domain model describes it. */
  lemma ReadIsProjection(machine: MachineDomain.CncMachine)
    ensures Read(machine) == ReadingOf(machine.View())
  {
  }

  /** The value of one metric: a string or a double. */
  datatype MetricValue = Text(text: string) | Number(number: Double)

  /** One entry of the metrics dictionary. */
  datatype Metric = Metric(key: string, value: MetricValue)

  /** One message to publish: its topic and the value its payload carries. */
  datatype Publication = Publication(topic: string, value: MetricValue)

  /** One call of the client's publish: what was sent and whether the call
      returned (false: it threw). A returned call says nothing about the
      broker's acknowledgement. */
  datatype Attempt = Attempt(topic: string, payload: MetricValue, returned: bool)

  /** What the agent logs. */
  datatype LogEntry =
    | Published(topic: string, payload: MetricValue)
    | PublishFailed(serialNumber: string)
    | MachineFailed(name: string)

  /** The keys of a snapshot, in the order the dictionary is filled. */
  const MetricKeys: seq<string> :=
    ["info/serialNumber", "info/name", "info/plant", "runtime/spindleSpeed", "status/state", "status/phase"]

  // ---------------------------------------------------------------------
  // Topics
  // ---------------------------------------------------------------------

  function BaseTopic(plant: string, serialNumber: string): string {
    "pohl-industries/" + plant + "/machines/" + serialNumber + "/telemetry"
  }

  /** The topic of one metric of one machine. */
  function Topic(plant: string, serialNumber: string, key: string): (t: string)
    ensures t == "pohl-industries/" + plant + "/machines/" + serialNumber + "/telemetry/" + key
  {
    BaseTopic(plant, serialNumber) + "/" + key
  }

  /** Within one machine, the key is recovered from the topic: different
      keys give different topics. */
  lemma TopicDeterminesKey(plant: string, serialNumber: string, k1: string, k2: string)
    requires Topic(plant, serialNumber, k1) == Topic(plant, serialNumber, k2)
    ensures k1 == k2
  {
    var prefix := BaseTopic(plant, serialNumber) + "/";
    assert Topic(plant, serialNumber, k1) == prefix + k1;
    assert Topic(plant, serialNumber, k2) == prefix + k2;
    assert k1 == (prefix + k1)[|prefix|..];
    assert k2 == (prefix + k2)[|prefix|..];
  }

  predicate SlashFree(s: string) {
    '/' !in s
  }

  /** Equal texts with a common prefix have equal remainders. */
  lemma CommonPrefix(p: string, x: string, y: string)
    requires p + x == p + y
    ensures x == y
  {
    assert x == (p + x)[|p|..];
    assert y == (p + y)[|p|..];
  }

  /** A slash-free segment followed by a slash is recovered from the text. */
  lemma SegmentDetermined(a: string, b: string, r1: string, r2: string)
    requires SlashFree(a) && SlashFree(b)
    requires a + "/" + r1 == b + "/" + r2
    ensures a == b && r1 == r2
  {
    var s := a + "/" + r1;
    var t := b + "/" + r2;
    assert forall k :: 0 <= k < |a| ==> s[k] == a[k];
    assert forall k :: 0 <= k < |b| ==> t[k] == b[k];
    assert s[|a|] == '/' && t[|b|] == '/';
    assert |a| == |b|;
    assert a == s[..|a|];
    assert b == t[..|b|];
    assert r1 == s[|a| + 1..];
    assert r2 == t[|b| + 1..];
  }

  /** A topic read segment by segment. */
  lemma TopicSegments(plant: string, serialNumber: string, key: string)
    ensures Topic(plant, serialNumber, key)
            == "pohl-industries/" + (plant + "/" + ("machines/" + (serialNumber + "/" + ("telemetry/" + key))))
  {
  }

  /** When plants and serial numbers hold no slash, a topic names exactly one
      machine and one metric. */
  lemma TopicsSeparateMachines(p1: string, s1: string, k1: string, p2: string, s2: string, k2: string)
    requires SlashFree(p1) && SlashFree(s1) && SlashFree(p2) && SlashFree(s2)
    requires Topic(p1, s1, k1) == Topic(p2, s2, k2)
    ensures p1 == p2 && s1 == s2 && k1 == k2
  {
    var t1 := "telemetry/" + k1;
    var t2 := "telemetry/" + k2;
    var r1 := "machines/" + (s1 + "/" + t1);
    var r2 := "machines/" + (s2 + "/" + t2);
    TopicSegments(p1, s1, k1);
    TopicSegments(p2, s2, k2);
    CommonPrefix("pohl-industries/", p1 + "/" + r1, p2 + "/" + r2);
    SegmentDetermined(p1, p2, r1, r2);
    CommonPrefix("machines/", s1 + "/" + t1, s2 + "/" + t2);
    SegmentDetermined(s1, s2, t1, t2);
    CommonPrefix("telemetry/", k1, k2);
  }

  /** Without that condition two machines can share a topic: the plant and
      serial segments are not escaped. */
  lemma SlashesMergeMachines()
    ensures Topic("A/machines/B", "C", "info/name") == Topic("A", "B/machines/C", "info/name")
  {
  }

  // ---------------------------------------------------------------------
  // Snapshot
  // ---------------------------------------------------------------------

  /** The metrics dictionary of a machine, in insertion order. Statuses and
      phases are published by their symbolic names. */
  function Metrics(m: Reading): (ms: seq<Metric>)
    ensures |ms| == |MetricKeys|
  {
    [ Metric("info/serialNumber", Text(m.serialNumber)),
      Metric("info/name", Text(m.name)),
      Metric("info/plant", Text(m.plant)),
      Metric("runtime/spindleSpeed", Number(m.spindleSpeed)),
      Metric("status/state", Text(StatusName(m.status))),
      Metric("status/phase", Text(PhaseName(m.phase))) ]
  }

  /** The value the dictionary holds for `key`. */
  function Lookup(ms: seq<Metric>, key: string): Option<MetricValue> {
    if ms == [] then None
    else if ms[0].key == key then Some(ms[0].value)
    else Lookup(ms[1..], key)
  }

  /** The six keys are pairwise distinct, so the dictionary keeps six entries. */
  lemma MetricKeysDistinct()
    ensures forall i, j :: 0 <= i < j < |MetricKeys| ==> MetricKeys[i] != MetricKeys[j]
  {
  }

  /** A key that does not occur earlier is looked up at its own position. */
  lemma {:induction false} LookupFindsFirst(ms: seq<Metric>, i: int)
    requires 0 <= i < |ms|
    requires forall j :: 0 <= j < i ==> ms[j].key != ms[i].key
    ensures Lookup(ms, ms[i].key) == Some(ms[i].value)
  {
    if i > 0 {
      assert ms[1..][i - 1] == ms[i];
      LookupFindsFirst(ms[1..], i - 1);
    }
  }

  /** What each key of a snapshot holds. */
  lemma MetricValues(m: Reading)
    ensures Lookup(Metrics(m), "info/serialNumber") == Some(Text(m.serialNumber))
    ensures Lookup(Metrics(m), "info/name") == Some(Text(m.name))
    ensures Lookup(Metrics(m), "info/plant") == Some(Text(m.plant))
    ensures Lookup(Metrics(m), "runtime/spindleSpeed") == Some(Number(m.spindleSpeed))
    ensures Lookup(Metrics(m), "status/state") == Some(Text(StatusName(m.status)))
    ensures Lookup(Metrics(m), "status/phase") == Some(Text(PhaseName(m.phase)))
  {
    MetricKeysDistinct();
    var ms := Metrics(m);
    LookupFindsFirst(ms, 0);
    LookupFindsFirst(ms, 1);
    LookupFindsFirst(ms, 2);
    LookupFindsFirst(ms, 3);
    LookupFindsFirst(ms, 4);
    LookupFindsFirst(ms, 5);
  }

  /** The messages for a metrics dictionary under `baseTopic`: one per
      entry, in order, the topic extended by the entry's key. */
  function Publications(baseTopic: string, metrics: seq<Metric>): (ps: seq<Publication>)
    ensures |ps| == |metrics|
  {
    seq(|metrics|, i requires 0 <= i < |metrics| => Publication(baseTopic + "/" + metrics[i].key, metrics[i].value))
  }

  /** Message i carries entry i of the dictionary under its own key. */
  lemma PublicationAt(baseTopic: string, metrics: seq<Metric>, i: int)
    requires 0 <= i < |metrics|
    ensures Publications(baseTopic, metrics)[i]
            == Publication(baseTopic + "/" + metrics[i].key, metrics[i].value)
  {
  }

  /** The messages of one snapshot, in the order they are published. */
  function Snapshot(m: Reading): (ps: seq<Publication>)
    ensures |ps| == |MetricKeys|
  {
    Publications(BaseTopic(m.plant, m.serialNumber), Metrics(m))
  }

  /** Message i of a snapshot goes to the topic of key i and carries the
      value the dictionary holds under that key. */
  lemma SnapshotAt(m: Reading, i: int)
    requires 0 <= i < |MetricKeys|
    ensures Snapshot(m)[i] == Publication(Topic(m.plant, m.serialNumber, MetricKeys[i]), Metrics(m)[i].value)
    ensures Metrics(m)[i].key == MetricKeys[i]
  {
    PublicationAt(BaseTopic(m.plant, m.serialNumber), Metrics(m), i);
  }

  /** The six topics of a snapshot are pairwise distinct. */
  lemma SnapshotTopicsDistinct(m: Reading, i: int, j: int)
    requires 0 <= i < j < |MetricKeys|
    ensures Snapshot(m)[i].topic != Snapshot(m)[j].topic
  {
    MetricKeysDistinct();
    SnapshotAt(m, i);
    SnapshotAt(m, j);
    if Snapshot(m)[i].topic == Snapshot(m)[j].topic {
      TopicDeterminesKey(m.plant, m.serialNumber, MetricKeys[i], MetricKeys[j]);
    }
  }

  // ---------------------------------------------------------------------
  // Payloads
  // ---------------------------------------------------------------------

  /** System.Text.Json writes strings and finite doubles; by default it
      throws for NaN and the infinities. */
  predicate Serializable(v: MetricValue) {
    !(v.Number? && !v.number.Finite?)
  }

  /** Serialising the payload of one message. The timestamp is not modelled. */
  function Serialize(v: MetricValue): (r: Result<MetricValue, Error>)
    ensures r.Success? <==> Serializable(v)
    ensures r.Success? ==> r.value == v
    ensures r.Failure? ==> r.error == NonFiniteNumberNotSupported
  {
    if v.Number? && !v.number.Finite? then Failure(NonFiniteNumberNotSupported) else Success(v)
  }

  /** The position of the first message whose payload cannot be serialised,
      or the number of messages when all can. */
  function FirstUnserializable(ps: seq<Publication>): (k: nat)
    ensures k <= |ps|
    ensures forall j :: 0 <= j < k ==> Serializable(ps[j].value)
    ensures k < |ps| ==> !Serializable(ps[k].value)
  {
    if ps == [] then 0
    else if !Serializable(ps[0].value) then 0
    else 1 + FirstUnserializable(ps[1..])
  }

  /** The number of messages of a snapshot that reach the client: all of
      them unless the spindle speed is not finite, and then the three info
      messages that come before it. */
  function Attempted(m: Reading): nat {
    if m.spindleSpeed.Finite? then |MetricKeys| else 3
  }

  /** Publishing stops at the first payload that cannot be serialised, and
      in a snapshot that is the spindle speed or nothing. */
  lemma AttemptedMessages(m: Reading)
    ensures FirstUnserializable(Snapshot(m)) == Attempted(m)
  {
    var ps := Snapshot(m);
    SnapshotAt(m, 0); SnapshotAt(m, 1); SnapshotAt(m, 2);
    SnapshotAt(m, 3); SnapshotAt(m, 4); SnapshotAt(m, 5);
    assert Serializable(ps[0].value) && Serializable(ps[1].value) && Serializable(ps[2].value);
    assert Serializable(ps[4].value) && Serializable(ps[5].value);
    assert Serializable(ps[3].value) <==> m.spindleSpeed.Finite?;
  }

  // ---------------------------------------------------------------------
  // Logs
  // ---------------------------------------------------------------------

  /** The log line for one publish call. */
  function LogFor(serialNumber: string, a: Attempt): LogEntry {
    if a.returned then Published(a.topic, a.payload) else PublishFailed(serialNumber)
  }

  /** The log lines for a run of publish calls for one machine. */
  function PublishLog(serialNumber: string, attempts: seq<Attempt>): seq<LogEntry> {
    if attempts == [] then []
    else PublishLog(serialNumber, attempts[..|attempts| - 1]) + [LogFor(serialNumber, attempts[|attempts| - 1])]
  }

  lemma PublishLogStep(serialNumber: string, attempts: seq<Attempt>, a: Attempt)
    ensures PublishLog(serialNumber, attempts + [a]) == PublishLog(serialNumber, attempts) + [LogFor(serialNumber, a)]
  {
    assert (attempts + [a])[..|attempts|] == attempts;
  }

  /** One log line per publish call, in order: a success line when the
      call returned and an error line naming the machine when it threw. */
  lemma {:induction false} PublishLogAt(serialNumber: string, attempts: seq<Attempt>, i: int)
    requires 0 <= i < |attempts|
    ensures |PublishLog(serialNumber, attempts)| == |attempts|
    ensures PublishLog(serialNumber, attempts)[i] ==
            if attempts[i].returned then Published(attempts[i].topic, attempts[i].payload)
            else PublishFailed(serialNumber)
  {
    var n := |attempts| - 1;
    if i < n {
      PublishLogAt(serialNumber, attempts[..n], i);
    } else if n > 0 {
      PublishLogAt(serialNumber, attempts[..n], 0);
    }
  }

  /** The messages of one snapshot that reach the client. */
  function Outgoing(v: Reading): (ps: seq<Publication>)
    ensures |ps| == Attempted(v)
  {
    Snapshot(v)[..Attempted(v)]
  }

  /** The log lines of one machine's turn: one per publish call, then an
      error line naming the machine when its snapshot threw. */
  function MachineLog(v: Reading, attempts: seq<Attempt>): seq<LogEntry> {
    PublishLog(v.serialNumber, attempts)
    + (if Attempted(v) == |MetricKeys| then [] else [MachineFailed(v.name)])
  }

  /** The messages a run over the first `n` machines, with these states,
      sends, in order. */
  function Planned(views: seq<Reading>, n: nat): seq<Publication>
    requires n <= |views|
  {
    if n == 0 then [] else Planned(views, n - 1) + Outgoing(views[n - 1])
  }

  /** The log a run over the first `n` machines writes, given the outcome
      of each publish call. */
  function MachinesLog(views: seq<Reading>, n: nat, attempts: seq<Attempt>): seq<LogEntry>
    requires n <= |views| && |attempts| == |Planned(views, n)|
  {
    if n == 0 then []
    else
      var k := |attempts| - Attempted(views[n - 1]);
      MachinesLog(views, n - 1, attempts[..k]) + MachineLog(views[n - 1], attempts[k..])
  }

  /** The log of one more machine is the log so far followed by that
      machine's own lines: one per publish call, then the error line naming
      it when its snapshot threw. */
  lemma MachinesLogStep(views: seq<Reading>, n: nat, before: seq<Attempt>, run: seq<Attempt>)
    requires n < |views|
    requires |before| == |Planned(views, n)| && |run| == Attempted(views[n])
    ensures |before + run| == |Planned(views, n + 1)|
    ensures MachinesLog(views, n + 1, before + run)
            == MachinesLog(views, n, before) + MachineLog(views[n], run)
  {
    assert (before + run)[..|before|] == before;
    assert (before + run)[|before|..] == run;
  }

  /** The messages of fewer machines begin the messages of more. */
  lemma {:induction false} PlannedPrefix(views: seq<Reading>, m: nat, n: nat)
    requires m <= n <= |views|
    ensures |Planned(views, m)| <= |Planned(views, n)|
    ensures Planned(views, n)[..|Planned(views, m)|] == Planned(views, m)
  {
    if m < n {
      PlannedPrefix(views, m, n - 1);
      var before := Planned(views, n - 1);
      assert Planned(views, n) == before + Outgoing(views[n - 1]);
      assert Planned(views, n)[..|before|] == before;
      assert Planned(views, n)[..|Planned(views, m)|] == before[..|Planned(views, m)|];
    }
  }

  /** Every machine gets its turn, in order, whatever the machines before it
      did: in the messages of a run over `n` machines, those of machine k
      come right after those of machines 0 to k - 1 and are what its own
      snapshot sends. */
  lemma PlannedTurn(views: seq<Reading>, n: nat, k: nat)
    requires k < n <= |views|
    ensures |Planned(views, k)| <= |Planned(views, k + 1)| <= |Planned(views, n)|
    ensures Planned(views, n)[|Planned(views, k)|..|Planned(views, k + 1)|] == Outgoing(views[k])
  {
    PlannedPrefix(views, k + 1, n);
    var p := Planned(views, k);
    var q := Planned(views, k + 1);
    assert q == p + Outgoing(views[k]);
    assert Planned(views, n)[|p|..|q|] == q[|p|..];
  }

  /** The log of fewer machines begins the log of more. */
  lemma {:induction false} MachinesLogPrefix(views: seq<Reading>, m: nat, n: nat, attempts: seq<Attempt>)
    requires m <= n <= |views| && |attempts| == |Planned(views, n)|
    ensures |Planned(views, m)| <= |attempts|
    ensures MachinesLog(views, m, attempts[..|Planned(views, m)|]) <= MachinesLog(views, n, attempts)
  {
    if m < n {
      var k := |attempts| - Attempted(views[n - 1]);
      var init, tail := attempts[..k], attempts[k..];
      assert init + tail == attempts;
      MachinesLogStep(views, n - 1, init, tail);
      MachinesLogPrefix(views, m, n - 1, init);
      var p := |Planned(views, m)|;
      assert init[..p] == attempts[..p];
      PrefixOfAppend(MachinesLog(views, m, init[..p]), MachinesLog(views, n - 1, init),
                     MachineLog(views[n - 1], tail));
    } else {
      assert attempts[..|Planned(views, m)|] == attempts;
    }
  }

  /** A prefix of a sequence is a prefix of any extension of it. */
  lemma PrefixOfAppend<T>(a: seq<T>, b: seq<T>, c: seq<T>)
    requires a <= b
    ensures a <= b + c
  {
    assert (b + c)[..|b|] == b;
  }

  /** One turn of a run over machines: its messages and log lines follow
      those of the machines before it. */
  lemma TurnStep(views: seq<Reading>, i: nat, run: seq<Attempt>, machineRun: seq<Attempt>,
                 log0: seq<LogEntry>, logged: seq<LogEntry>)
    requires i < |views|
    requires Sents(run) == Planned(views, i)
    requires Sents(machineRun) == Outgoing(views[i])
    requires logged == MachinesLog(views, i, run)
    ensures Sents(run + machineRun) == Planned(views, i + 1)
    ensures log0 + logged + MachineLog(views[i], machineRun) == log0 + MachinesLog(views, i + 1, run + machineRun)
  {
    SentsAppend(run, machineRun);
    MachinesLogStep(views, i, run, machineRun);
    AppendAssoc(log0, logged, MachineLog(views[i], machineRun));
  }

  /** Concatenation is associative. */
  lemma AppendAssoc<T>(a: seq<T>, b: seq<T>, c: seq<T>)
    ensures (a + b) + c == a + (b + c)
  {
  }

  /** Which of the first `n` machines get a handler: those whose snapshot
      was published without an exception. */
  function Subscriptions(views: seq<Reading>, n: nat): (s: seq<bool>)
    requires n <= |views|
    ensures |s| == n
  {
    if n == 0 then [] else Subscriptions(views, n - 1) + [Attempted(views[n - 1]) == |MetricKeys|]
  }

  /** Machine k gets a handler exactly when its snapshot went out whole. */
  lemma {:induction false} SubscriptionsAt(views: seq<Reading>, n: nat, k: nat)
    requires k < n <= |views|
    ensures Subscriptions(views, n)[k] <==> Attempted(views[k]) == |MetricKeys|
  {
    if k < n - 1 {
      SubscriptionsAt(views, n - 1, k);
    }
  }

  /** The readings of a sequence of machines. */
  function Readings(machines: seq<MachineDomain.CncMachine>): (rs: seq<Reading>)
    reads machines`actualSpindleSpeed, machines`status, machines`phase
    ensures |rs| == |machines|
    ensures forall i {:trigger rs[i]} :: 0 <= i < |machines| ==> rs[i] == Read(machines[i])
  {
    if machines == [] then []
    else Readings(machines[..|machines| - 1]) + [Read(machines[|machines| - 1])]
  }

  /** The messages a run of publish calls carried, in order. */
  function Sents(attempts: seq<Attempt>): (ps: seq<Publication>)
    ensures |ps| == |attempts|
  {
    if attempts == [] then []
    else
      var a := attempts[|attempts| - 1];
      Sents(attempts[..|attempts| - 1]) + [Publication(a.topic, a.payload)]
  }

  lemma SentsStep(attempts: seq<Attempt>, a: Attempt)
    ensures Sents(attempts + [a]) == Sents(attempts) + [Publication(a.topic, a.payload)]
  {
    assert (attempts + [a])[..|attempts|] == attempts;
  }

  /** The messages of two runs are those of the first, then the second. */
  lemma {:induction false} SentsAppend(first: seq<Attempt>, second: seq<Attempt>)
    ensures Sents(first + second) == Sents(first) + Sents(second)
  {
    if second != [] {
      var n := |second| - 1;
      SentsAppend(first, second[..n]);
      assert first + second == (first + second[..n]) + [second[n]];
      SentsStep(first + second[..n], second[n]);
      assert second == second[..n] + [second[n]];
      SentsStep(second[..n], second[n]);
    } else {
      assert first + second == first;
    }
  }

  /** A message that cannot be serialised, reached with every earlier one
      serialised, is the first such message. */
  lemma StopsAtFirstUnserializable(ps: seq<Publication>, i: nat)
    requires i <= FirstUnserializable(ps) && i < |ps| && !Serializable(ps[i].value)
    ensures FirstUnserializable(ps) == i
  {
  }

  /** One more publish call carrying message i extends the messages sent and
      the log by that call. */
  lemma PublishStep(serialNumber: string, ps: seq<Publication>, i: nat, run: seq<Attempt>, a: Attempt,
                    log0: seq<LogEntry>)
    requires i < |ps| && Sents(run) == ps[..i] && Publication(a.topic, a.payload) == ps[i]
    ensures Sents(run + [a]) == ps[..i + 1]
    ensures log0 + PublishLog(serialNumber, run) + [LogFor(serialNumber, a)]
            == log0 + PublishLog(serialNumber, run + [a])
  {
    SentsStep(run, a);
    assert ps[..i + 1] == ps[..i] + [ps[i]];
    PublishLogStep(serialNumber, run, a);
  }

  // ---------------------------------------------------------------------
  // The broker and the agent
  // ---------------------------------------------------------------------

  /** The MQTT client as the agent sees it: every publish call is recorded,
      and each may throw. */
  class MqttClient {
    var attempts: seq<Attempt>

    constructor ()
      ensures attempts == []
    {
      attempts := [];
    }

    /** `PublishAsync`: `returned` is false when the call throws. */
    method PublishAsync(topic: string, payload: MetricValue) returns (returned: bool)
      modifies this
      ensures attempts == old(attempts) + [Attempt(topic, payload, returned)]
    {
      returned := *;
      attempts := attempts + [Attempt(topic, payload, returned)];
    }
  }

  class OpcAgent {
    const machines: seq<MachineDomain.CncMachine>
    const client: MqttClient
    ghost const events: seq<MachineDomain.StateChangedEvent> :=
      seq(|machines|, i requires 0 <= i < |machines| => machines[i].machineStateChanged)
    /** What the agent's logger has written. */
    var log: seq<LogEntry>

    constructor (machines: seq<MachineDomain.CncMachine>, client: MqttClient)
      ensures this.machines == machines && this.client == client && log == []
    {
      this.machines := machines;
      this.client := client;
      log := [];
    }

    /** `PublishSnapshotAsync`: one publish call per metric, in order; a
        failed call is logged and the next metric is still published. A
        payload that cannot be serialised throws out of the method, and the
        remaining metrics are not published. `run` is the publish calls made. */
    method PublishSnapshot(machine: MachineDomain.CncMachine) returns (r: Outcome<Error>, ghost run: seq<Attempt>)
      modifies this, client
      ensures client.attempts == old(client.attempts) + run
      ensures Sents(run) == Snapshot(Read(machine))[..Attempted(Read(machine))]
      ensures log == old(log) + PublishLog(machine.serialNumber, run)
      ensures r == Pass <==> Attempted(Read(machine)) == |MetricKeys|
      ensures r.Fail? ==> r.error == NonFiniteNumberNotSupported
    {
      var baseTopic := BaseTopic(machine.plant, machine.serialNumber);
      var metrics := Metrics(Read(machine));
      r, run := PublishMetrics(machine.serialNumber, baseTopic, metrics);
      AttemptedMessages(Read(machine));
    }

    /** The publish loop of `PublishSnapshotAsync` over the metrics
        dictionary: stops at the first payload that cannot be serialised. */
    method PublishMetrics(serialNumber: string, baseTopic: string, metrics: seq<Metric>)
      returns (r: Outcome<Error>, ghost run: seq<Attempt>)
      modifies this, client
      ensures client.attempts == old(client.attempts) + run
      ensures var ps := Publications(baseTopic, metrics);
              Sents(run) == ps[..FirstUnserializable(ps)]
      ensures log == old(log) + PublishLog(serialNumber, run)
      ensures r == Pass <==> FirstUnserializable(Publications(baseTopic, metrics)) == |metrics|
      ensures r.Fail? ==> r.error == NonFiniteNumberNotSupported
    {
      ghost var ps := Publications(baseTopic, metrics);
      run := [];
      var i := 0;
      while i < |metrics|
        invariant 0 <= i <= FirstUnserializable(ps)
        invariant client.attempts == old(client.attempts) + run
        invariant Sents(run) == ps[..i]
        invariant log == old(log) + PublishLog(serialNumber, run)
      {
        var topic := baseTopic + "/" + metrics[i].key;
        PublicationAt(baseTopic, metrics, i);
        var payload := Serialize(metrics[i].value);
        if payload.Failure? {
          StopsAtFirstUnserializable(ps, i);
          return Fail(payload.error), run;
        }
        var returned := client.PublishAsync(topic, payload.value);
        ghost var a := Attempt(topic, payload.value, returned);
        PublishStep(serialNumber, ps, i, run, a, old(log));
        run := run + [a];
        if returned {
          log := log + [Published(topic, payload.value)];
        } else {
          log := log + [PublishFailed(serialNumber)];
        }
        i := i + 1;
      }
      return Pass, run;
    }

    /** One turn of the loop of `PublishMachinesAsync`: the snapshot is
        published and only then, if nothing was thrown, a handler is
        registered on the machine's change event; a throw is logged instead. */
    method PublishMachine(machine: MachineDomain.CncMachine) returns (subscribed: bool, ghost run: seq<Attempt>)
      modifies this, client, machine.machineStateChanged`handlers
      ensures subscribed <==> Attempted(Read(machine)) == |MetricKeys|
      ensures client.attempts == old(client.attempts) + run
      ensures Sents(run) == Outgoing(Read(machine))
      ensures log == old(log) + MachineLog(Read(machine), run)
      ensures machine.machineStateChanged.handlers ==
              old(machine.machineStateChanged.handlers) + (if subscribed then 1 else 0)
      ensures machine.machineStateChanged.raised == old(machine.machineStateChanged.raised)
    {
      var r;
      r, run := PublishSnapshot(machine);
      subscribed := r.Pass?;
      if subscribed {
        machine.machineStateChanged.Subscribe();
        assert PublishLog(machine.serialNumber, run) + [] == PublishLog(machine.serialNumber, run);
      } else {
        AppendAssoc(old(log), PublishLog(machine.serialNumber, run), [MachineFailed(machine.name)]);
        log := log + [MachineFailed(machine.name)];
      }
    }

    /** `PublishMachinesAsync`: every machine in turn, and a machine that
        throws does not stop the others. `subscribed[i]` says whether
        machine i got its handler; `run` is the publish calls made. */
    method PublishMachines() returns (subscribed: seq<bool>, ghost run: seq<Attempt>)
      modifies this, client, events`handlers
      ensures |subscribed| == |machines|
      ensures forall i :: 0 <= i < |machines| ==>
                (subscribed[i] <==> Attempted(old(Read(machines[i]))) == |MetricKeys|)
      ensures client.attempts == old(client.attempts) + run
      ensures Sents(run) == Planned(old(Readings(machines)), |machines|)
      ensures log == old(log) + MachinesLog(old(Readings(machines)), |machines|, run)
      ensures forall i :: 0 <= i < |events| ==> events[i].raised == old(events[i].raised)
    {
      ghost var views := Readings(machines);
      subscribed, run := [], [];
      var i := 0;
      while i < |machines|
        invariant 0 <= i <= |machines|
        invariant subscribed == Subscriptions(views, i)
        invariant client.attempts == old(client.attempts) + run
        invariant Sents(run) == Planned(views, i)
        invariant log == old(log) + MachinesLog(views, i, run)
      {
        var machine := machines[i];
        assert machine.machineStateChanged == events[i];
        var ok, machineRun := PublishMachine(machine);
        assert Read(machine) == views[i];
        TurnStep(views, i, run, machineRun, old(log), MachinesLog(views, i, run));
        AppendAssoc(old(client.attempts), run, machineRun);
        run := run + machineRun;
        subscribed := subscribed + [ok];
        i := i + 1;
      }
      forall k | 0 <= k < |machines| {
        SubscriptionsAt(views, |machines|, k);
      }
    }
  }
}
