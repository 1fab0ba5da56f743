/** The device state cache: one refresh reads every variable of a device, caches the answers and raises alarms. */
module StateCache {
  import opened Config
  import opened AlarmStore
  import opened AlarmEdges
  import opened ConnectionManager
  import opened DeviceState
  import opened Fleet
  import opened Thresholds

  datatype CachedVariable = CachedVariable(value: Value, ok: bool, statusCode: string, error: string)

  datatype Snapshot = Snapshot(
    online: bool, connection: ConnectionState, deviceConnected: bool, status: string, lastError: string,
    variables: map<string, CachedVariable>)

  datatype View = View(states: map<string, Snapshot>, tracker: Tracker)

  function KeyOf(deviceId: string, name: string): string {
    deviceId + "|" + name
  }

  const COMMUNICATION := "__communication"

  /** One of the ids, followed by a bar, starts the other. */
  predicate Collide(a: string, b: string) {
    a + "|" <= b || b + "|" <= a
  }

  lemma SharedKey(a: string, x: string, b: string, y: string)
    requires KeyOf(a, x) == KeyOf(b, y) && |a| < |b|
    ensures a + "|" <= b
  {
    var n := |a| + 1;
    assert a + "|" == KeyOf(a, x)[..n] == KeyOf(b, y)[..n] == b[..n];
  }

  lemma CollisionHasKey(a: string, b: string) returns (x: string, y: string)
    requires a + "|" <= b
    ensures KeyOf(a, x) == KeyOf(b, y) && x != COMMUNICATION && y != COMMUNICATION
  {
    x, y := b[|a| + 1..] + "|", "";
    assert b == a + "|" + b[|a| + 1..];
    assert x[|x| - 1] == '|' && COMMUNICATION[|COMMUNICATION| - 1] == 'n';
  }

  /** Two device ids can share a key if and only if one of them, followed by a bar, starts the other. */
  lemma CollideExactly(a: string, b: string)
    requires a != b
    ensures (exists x, y :: KeyOf(a, x) == KeyOf(b, y)) <==> Collide(a, b)
  {
    if x, y :| KeyOf(a, x) == KeyOf(b, y) {
      KeysOfCollision(a, x, b, y);
    }
    if a + "|" <= b {
      var x, y := CollisionHasKey(a, b);
      assert KeyOf(a, x) == KeyOf(b, y);
    } else if b + "|" <= a {
      var y, x := CollisionHasKey(b, a);
      assert KeyOf(a, x) == KeyOf(b, y);
    }
  }

  lemma KeysOfCollision(a: string, x: string, b: string, y: string)
    requires KeyOf(a, x) == KeyOf(b, y)
    ensures Collide(a, b) || (a == b && x == y)
  {
    if |a| < |b| {
      SharedKey(a, x, b, y);
    } else if |b| < |a| {
      SharedKey(b, y, a, x);
    } else {
      assert a == KeyOf(a, x)[..|a|] == KeyOf(b, y)[..|b|] == b;
      assert x == KeyOf(a, x)[|a| + 1..] == KeyOf(b, y)[|b| + 1..] == y;
    }
  }

  /** Ids that do not collide never share a key, and within a device keys are as different as the names. */
  lemma KeysAreDistinct(a: string, x: string, b: string, y: string)
    requires !Collide(a, b)
    ensures KeyOf(a, x) == KeyOf(b, y) <==> a == b && x == y
  {
    if KeyOf(a, x) == KeyOf(b, y) {
      KeysOfCollision(a, x, b, y);
    }
  }

  predicate AllOk(readings: seq<ReadResult>) {
    readings != [] && forall i :: 0 <= i < |readings| ==> readings[i].ok
  }

  predicate AllFailed(readings: seq<ReadResult>) {
    readings != [] && !AnyOk(readings)
  }

  function FixedStatus(allOk: bool, anyOk: bool): string {
    if allOk then "OK" else if anyOk then "DEGRADED" else "ERROR"
  }

  /** Error text of the first of n readings that failed and has one. */
  function FirstError(readings: seq<ReadResult>, n: nat): string
    requires n <= |readings|
  {
    if n == 0 then ""
    else
      var before, last := FirstError(readings, n - 1), readings[n - 1];
      if before == "" && !last.ok then (if last.error == "" then last.statusCode else last.error) else before
  }

  function CachedOf(reading: ReadResult): CachedVariable {
    CachedVariable(reading.value, reading.ok, reading.statusCode, reading.error)
  }

  /** Cached variables after the first n readings. */
  function CacheVariables(variables: seq<VariableConfig>, readings: seq<ReadResult>, n: nat): map<string,
    CachedVariable>
    requires n <= |variables| == |readings|
  {
    if n == 0 then map[]
    else CacheVariables(variables, readings, n - 1)[variables[n - 1].name := CachedOf(readings[n - 1])]
  }

  lemma {:induction false} CachedAt(variables: VariableTable, readings: seq<ReadResult>, n: nat, k: nat)
    requires k < n <= |variables| == |readings|
    ensures variables[k].name in CacheVariables(variables, readings, n)
    ensures CacheVariables(variables, readings, n)[variables[k].name] == CachedOf(readings[k])
  {
    if k < n - 1 {
      CachedAt(variables, readings, n - 1, k);
      assert variables[k].name != variables[n - 1].name;
    }
  }

  lemma {:induction false} CachedFrom(variables: VariableTable, readings: seq<ReadResult>, n: nat, name: string)
    returns (k: nat)
    requires n <= |variables| == |readings| && name in CacheVariables(variables, readings, n)
    ensures k < n && variables[k].name == name
  {
    if name == variables[n - 1].name {
      k := n - 1;
    } else {
      k := CachedFrom(variables, readings, n - 1, name);
    }
  }

  /** Every variable is cached under its name with its own reading, and nothing else is cached. */
  lemma CacheHoldsReadings(variables: VariableTable, readings: seq<ReadResult>)
    requires |variables| == |readings|
    ensures var cached := CacheVariables(variables, readings, |variables|);
            && (forall k :: 0 <= k < |variables| ==>
                  variables[k].name in cached && cached[variables[k].name] == CachedOf(readings[k]))
            && (forall name :: name in cached ==> exists k :: 0 <= k < |variables| && variables[k].name == name)
  {
    var cached := CacheVariables(variables, readings, |variables|);
    forall k | 0 <= k < |variables|
      ensures variables[k].name in cached && cached[variables[k].name] == CachedOf(readings[k])
    {
      CachedAt(variables, readings, |variables|, k);
    }
    forall name | name in cached ensures exists k :: 0 <= k < |variables| && variables[k].name == name {
      var k := CachedFrom(variables, readings, |variables|, name);
    }
  }

  function SnapshotOf(device: DeviceConfig, readings: seq<ReadResult>, health: ManagedState): Snapshot
    requires |readings| == |device.variables|
  {
    Snapshot(AnyOk(readings), health.connection, health.online, FixedStatus(AllOk(readings), AnyOk(readings)),
             if FirstError(readings, |readings|) == "" then health.lastError else FirstError(readings, |readings|),
             CacheVariables(device.variables, readings, |readings|))
  }

  function LevelName(level: Level): string {
    match level
    case WARN => "WARN"
    case CRITICAL => "CRITICAL"
    case ERROR => "ERROR"
  }

  function CodeName(code: Code): string {
    match code
    case VARIABLE_ABOVE_ALARM_MAX => "VARIABLE_ABOVE_ALARM_MAX"
    case VARIABLE_BELOW_ALARM_MIN => "VARIABLE_BELOW_ALARM_MIN"
    case VARIABLE_ABOVE_WARN_MAX => "VARIABLE_ABOVE_WARN_MAX"
    case VARIABLE_BELOW_WARN_MIN => "VARIABLE_BELOW_WARN_MIN"
    case OPCUA_READ_FAILED => "OPCUA_READ_FAILED"
    case COMMUNICATION_ERROR => "COMMUNICATION_ERROR"
  }

  function Direction(code: Code): string {
    match code
    case VARIABLE_ABOVE_ALARM_MAX => "above alarm_max"
    case VARIABLE_BELOW_ALARM_MIN => "below alarm_min"
    case VARIABLE_ABOVE_WARN_MAX => "above warn_max"
    case _ => "below warn_min"
  }

  function MessageOf(cause: Cause, code: Code): string {
    match cause
    case Limit(variable, value, threshold) =>
      variable + " is " + Direction(code) + " threshold; value=" + value + ", threshold=" + threshold
    case Failure(text) =>
      if text != "" then text
      else if code == COMMUNICATION_ERROR then "OPC UA communication failed for all configured variables"
      else "OPC UA variable read failed"
  }

  /** The record handed to the alarm store. */
  function ToRecord(a: Alarm): AlarmRecord {
    var level, code := LevelName(a.signature.level), CodeName(a.signature.code);
    AlarmRecord(a.deviceId + ":" + code + ":" + a.clock, a.clock, a.deviceId, level, level, code,
                MessageOf(a.cause, a.signature.code), "", "device_state_cache", a.node, a.value, a.threshold, false)
  }

  /** What the readings show about the device as a whole. */
  function ObserveDevice(readings: seq<ReadResult>): Observation {
    if AllFailed(readings) then Abnormal(Signature(ERROR, COMMUNICATION_ERROR)) else Normal
  }

  /** What the alarm pass takes from outside when it looks at a key: the wall clock, and the two numbers of a threshold
      message as they are printed. */
  datatype Stamp = Stamp(clock: string, value: string, threshold: string)

  function CommunicationEvent(device: DeviceConfig, readings: seq<ReadResult>, stamp: Stamp): Event {
    Saw(KeyOf(device.id, COMMUNICATION),
        ObserveDevice(readings),
        Alarm(device.id, Signature(ERROR, COMMUNICATION_ERROR), stamp.clock,
              Failure(FirstError(readings, |readings|)), device.endpoint, None, None))
  }

  /** What one reading shows about a variable. */
  function Observe(variable: VariableConfig, reading: ReadResult, allFailed: bool): Observation {
    if !reading.ok then
      if allFailed then Skip else Abnormal(Signature(ERROR, OPCUA_READ_FAILED))
    else
      match NumericValue(reading.value)
      case None => Normal
      case Some(value) =>
        match CacheVerdict(variable.rule, value)
        case None => Normal
        case Some(verdict) => Abnormal(verdict.signature)
  }

  function ThresholdAlarm(device: DeviceConfig, variable: VariableConfig, value: Option<real>, verdict: Verdict,
                          stamp: Stamp): Alarm {
    Alarm(device.id, verdict.signature, stamp.clock,
          Limit(variable.name, stamp.value, stamp.threshold), variable.nodeId, value, Some(verdict.threshold))
  }

  function VariableEvent(device: DeviceConfig, readings: seq<ReadResult>, k: nat, stamp: Stamp): Event
    requires k < |readings| == |device.variables|
  {
    var variable, reading := device.variables[k], readings[k];
    var verdict := match NumericValue(reading.value) case None => None case Some(value) => CacheVerdict(variable.rule,
                                                                                                        value);
    Saw(KeyOf(device.id, variable.name), Observe(variable, reading, AllFailed(readings)),
        if reading.ok && verdict.Some?
        then ThresholdAlarm(device, variable, NumericValue(reading.value), verdict.value, stamp)
        else Alarm(device.id, Signature(ERROR, OPCUA_READ_FAILED), stamp.clock, Failure(reading.error), variable.nodeId,
                   None, None))
  }

  /** What the alarm pass sees at its n-th look: the device as a whole, then one variable after the other. */
  function EventAt(device: DeviceConfig, readings: seq<ReadResult>, n: nat, stamp: Stamp): Event
    requires n <= |readings| == |device.variables|
  {
    if n == 0 then CommunicationEvent(device, readings, stamp) else VariableEvent(device, readings, n - 1, stamp)
  }

  /** The communication observation followed by those of the first n variables; the wall clock is read anew
      for each of them. */
  function RefreshEvents(device: DeviceConfig, readings: seq<ReadResult>, n: nat, stamps: seq<Stamp>): seq<Event>
    requires n <= |readings| == |device.variables| && n < |stamps|
  {
    seq(n + 1, k requires 0 <= k <= n => EventAt(device, readings, k, stamps[k]))
  }

  lemma RefreshEventsGrow(device: DeviceConfig, readings: seq<ReadResult>, n: nat, stamps: seq<Stamp>)
    requires n <= |readings| == |device.variables| && n < |stamps|
    ensures RefreshEvents(device, readings, n, stamps) ==
            (if n == 0 then [] else RefreshEvents(device, readings, n - 1, stamps)) +
            [EventAt(device, readings, n, stamps[n])]
  {
  }

  function Refreshed(view: View, device: DeviceConfig, readings: seq<ReadResult>, health: ManagedState,
                     stamps: seq<Stamp>): View
    requires |readings| == |device.variables| && |stamps| == |readings| + 1
  {
    View(view.states[device.id := SnapshotOf(device, readings, health)],
         TrackAll(view.tracker, RefreshEvents(device, readings, |readings|, stamps)))
  }

  lemma TrackFirst(t: Tracker, device: DeviceConfig, readings: seq<ReadResult>, stamps: seq<Stamp>)
    requires |readings| == |device.variables| && |stamps| > 0
    ensures TrackAll(t, RefreshEvents(device, readings, 0, stamps)) ==
            Track(t, CommunicationEvent(device, readings, stamps[0]))
  {
    RefreshEventsGrow(device, readings, 0, stamps);
    assert [] + [EventAt(device, readings, 0, stamps[0])] == [EventAt(device, readings, 0, stamps[0])];
    TrackOne(t, EventAt(device, readings, 0, stamps[0]));
  }

  lemma TrackNext(t: Tracker, device: DeviceConfig, readings: seq<ReadResult>, k: nat, stamps: seq<Stamp>)
    requires k < |readings| == |device.variables| && k + 1 < |stamps|
    ensures TrackAll(t, RefreshEvents(device, readings, k + 1, stamps)) ==
            Track(TrackAll(t, RefreshEvents(device, readings, k, stamps)),
                  VariableEvent(device, readings, k, stamps[k + 1]))
  {
    RefreshEventsGrow(device, readings, k + 1, stamps);
    TrackStep(t, RefreshEvents(device, readings, k, stamps), EventAt(device, readings, k + 1, stamps[k + 1]));
  }

  lemma ShownByVariable(device: DeviceConfig, readings: seq<ReadResult>, k: nat, stamp: Stamp, id: string,
                        name: string)
    requires k < |readings| == |device.variables| && !Collide(id, device.id)
    ensures Shown(KeyOf(id, name), VariableEvent(device, readings, k, stamp)) ==
            if id == device.id && name == device.variables[k].name
            then [Observe(device.variables[k], readings[k], AllFailed(readings))] else []
  {
    KeysAreDistinct(id, name, device.id, device.variables[k].name);
  }

  lemma ShownByDevice(device: DeviceConfig, readings: seq<ReadResult>, stamp: Stamp, id: string, name: string)
    requires |readings| == |device.variables| && !Collide(id, device.id)
    ensures Shown(KeyOf(id, name), CommunicationEvent(device, readings, stamp)) ==
            if id == device.id && name == COMMUNICATION then [ObserveDevice(readings)] else []
  {
    KeysAreDistinct(id, name, device.id, COMMUNICATION);
  }

  /** What a refresh of `device` shows about its variable `name` once n variables have been checked. */
  function ShownOfVariable(device: DeviceConfig, readings: seq<ReadResult>, n: nat, name: string): seq<Observation>
    requires n <= |readings| == |device.variables|
  {
    match FindVariableByName(device.variables, name)
    case None => []
    case Some(k) => if k < n then [Observe(device.variables[k], readings[k], AllFailed(readings))] else []
  }

  /** The same under the key of (id, name), which the device shares with a variable of the reserved name. */
  function ShownByRefresh(device: DeviceConfig, readings: seq<ReadResult>, n: nat, id: string,
                          name: string): seq<Observation>
    requires n <= |readings| == |device.variables|
  {
    if id != device.id then []
    else (if name == COMMUNICATION then [ObserveDevice(readings)] else []) + ShownOfVariable(device, readings, n, name)
  }

  lemma StreamOfCommunication(device: DeviceConfig, readings: seq<ReadResult>, stamps: seq<Stamp>, id: string,
                              name: string)
    requires |readings| == |device.variables| && |stamps| > 0 && !Collide(id, device.id)
    ensures Stream(KeyOf(id, name), RefreshEvents(device, readings, 0, stamps)) ==
            ShownByRefresh(device, readings, 0, id, name)
  {
    var e := EventAt(device, readings, 0, stamps[0]);
    RefreshEventsGrow(device, readings, 0, stamps);
    StreamOfOne(KeyOf(id, name), [], e);
    ShownByDevice(device, readings, stamps[0], id, name);
  }

  /** Under every key of a device that no other id collides with, a refresh leaves its own observations and
      nothing else. */
  lemma {:induction false} StreamOfRefresh(
    device: DeviceConfig, readings: seq<ReadResult>, n: nat, stamps: seq<Stamp>, id: string, name: string)
    requires n <= |readings| == |device.variables| && n < |stamps| && !Collide(id, device.id)
    ensures Stream(KeyOf(id, name), RefreshEvents(device, readings, n, stamps)) ==
            ShownByRefresh(device, readings, n, id, name)
  {
    if n == 0 {
      StreamOfCommunication(device, readings, stamps, id, name);
    } else {
      StreamOfRefresh(device, readings, n - 1, stamps, id, name);
      StreamOfNext(device, readings, n, stamps, id, name);
    }
  }

  lemma StreamOfNext(device: DeviceConfig, readings: seq<ReadResult>, n: nat, stamps: seq<Stamp>, id: string,
                     name: string)
    requires 1 <= n <= |readings| == |device.variables| && n < |stamps| && !Collide(id, device.id)
    requires Stream(KeyOf(id, name), RefreshEvents(device, readings, n - 1, stamps)) ==
             ShownByRefresh(device, readings, n - 1, id, name)
    ensures Stream(KeyOf(id, name), RefreshEvents(device, readings, n, stamps)) ==
            ShownByRefresh(device, readings, n, id, name)
  {
    var e := NextEvent(device, readings, n, stamps, id, name);
    StreamGoesOn(KeyOf(id, name), RefreshEvents(device, readings, n - 1, stamps), e,
                 RefreshEvents(device, readings, n, stamps));
  }

  lemma StreamGoesOn(key: string, events: seq<Event>, e: Event, longer: seq<Event>)
    requires longer == events + [e]
    ensures Stream(key, longer) == Stream(key, events) + Shown(key, e)
  {
    StreamOfOne(key, events, e);
  }

  lemma NextEvent(device: DeviceConfig, readings: seq<ReadResult>, n: nat, stamps: seq<Stamp>, id: string,
                  name: string)
    returns (e: Event)
    requires 1 <= n <= |readings| == |device.variables| && n < |stamps| && !Collide(id, device.id)
    ensures RefreshEvents(device, readings, n, stamps) == RefreshEvents(device, readings, n - 1, stamps) + [e]
    ensures ShownByRefresh(device, readings, n, id, name) ==
            ShownByRefresh(device, readings, n - 1, id, name) + Shown(KeyOf(id, name), e)
  {
    e := EventAt(device, readings, n, stamps[n]);
    RefreshEventsGrow(device, readings, n, stamps);
    ShownGrows(device, readings, n, stamps[n], id, name);
  }

  lemma VariableShownOnce(device: DeviceConfig, readings: seq<ReadResult>, n: nat, name: string)
    requires 1 <= n <= |readings| == |device.variables|
    ensures ShownOfVariable(device, readings, n, name) ==
            ShownOfVariable(device, readings, n - 1, name) +
            if name == device.variables[n - 1].name
            then [Observe(device.variables[n - 1], readings[n - 1], AllFailed(readings))] else []
  {
    if name == device.variables[n - 1].name {
      assert FindVariableByName(device.variables, name) == Some(n - 1);
    }
  }

  lemma ShownGrows(device: DeviceConfig, readings: seq<ReadResult>, n: nat, stamp: Stamp, id: string, name: string)
    requires 1 <= n <= |readings| == |device.variables| && !Collide(id, device.id)
    ensures ShownByRefresh(device, readings, n, id, name) ==
            ShownByRefresh(device, readings, n - 1, id, name) +
            Shown(KeyOf(id, name), EventAt(device, readings, n, stamp))
  {
    ShownByVariable(device, readings, n - 1, stamp, id, name);
    if id == device.id {
      VariableShownOnce(device, readings, n, name);
      ShownJoins(device, readings, n, name, Shown(KeyOf(id, name), EventAt(device, readings, n, stamp)));
    }
  }

  lemma ShownJoins(device: DeviceConfig, readings: seq<ReadResult>, n: nat, name: string, shown: seq<Observation>)
    requires 1 <= n <= |readings| == |device.variables|
    requires ShownOfVariable(device, readings, n, name) == ShownOfVariable(device, readings, n - 1, name) + shown
    ensures ShownByRefresh(device, readings, n, device.id, name) ==
            ShownByRefresh(device, readings, n - 1, device.id, name) + shown
  {
    Associate(if name == COMMUNICATION then [ObserveDevice(readings)] else [],
              ShownOfVariable(device, readings, n - 1, name), shown);
  }

  /** After a refresh, online, connected and phase Connected are one and the same, and the status is ERROR
      exactly when the device is not online. */
  ghost predicate Coherent(s: Snapshot) {
    && s.online == s.deviceConnected == (s.connection == Connected)
    && (s.status == "ERROR" <==> !s.online)
  }

  /** Undisturbed by other requests, a refresh leaves a coherent state, whatever the breaker and the retries do. */
  lemma RefreshIsCoherent(
    c: ReliabilityConfig, table: Table, device: DeviceConfig, connected: bool, now: nat, batches: seq<Batch>)
    requires batches != [] && forall i :: 0 <= i < |batches| ==> |batches[i].readings| == |device.variables|
    ensures var readings := ReadsResult(c, device, RecordOf(table, device.id), connected, now, batches);
            var after := AfterRequest(c, table, device, connected, now, JudgeAll(batches));
            Coherent(SnapshotOf(device, readings, SnapshotIn(device, after)))
  {
    var readings := ReadsResult(c, device, RecordOf(table, device.id), connected, now, batches);
    if device.enabled {
      OnlineAfterRequest(c, RecordOf(table, device.id), device, connected, now, batches);
    }
    assert AllOk(readings) ==> readings[0].ok;
  }

  lemma {:induction false} LastAttempt(replies: seq<Reply>)
    requires replies != []
    ensures AttemptSteps(replies) != [] && Last(AttemptSteps(replies)) == Record(replies[Used(replies) - 1])
    decreases replies
  {
    var pair := [MarkConnecting(replies[0].sentAt), Record(replies[0])];
    if replies[0].ok {
      assert AttemptSteps(replies) == pair;
    } else if |replies| == 1 {
      assert AttemptSteps(replies[1..]) == [] && AttemptSteps(replies) == pair;
    } else {
      LastAttempt(replies[1..]);
      assert Last(AttemptSteps(replies)) == Last(AttemptSteps(replies[1..]));
    }
  }

  lemma LastOfGranted(c: ReliabilityConfig, s: ManagedState, id: string, now: nat, replies: seq<Reply>)
    requires replies != [] && Allows(s.circuit, c.Cooldown(), now)
    ensures var own := RequestSteps(c, s, id, true, now, replies);
            own != [] && Last(own) == Record(replies[Used(replies) - 1])
  {
    LastAttempt(replies);
    assert RequestSteps(c, s, id, true, now, replies) == [Admit(now)] + AttemptSteps(replies);
  }

  lemma LastOfRefused(c: ReliabilityConfig, s: ManagedState, id: string, connected: bool, now: nat, replies: seq<Reply>)
    requires !(Allows(s.circuit, c.Cooldown(), now) && connected)
    ensures var own := RequestSteps(c, s, id, connected, now, replies);
            && own != []
            && (Last(own).RecordFailure? || (own == [Admit(now)] && !Allows(s.circuit, c.Cooldown(), now)))
  {
  }

  /** A request ends with a recorded outcome, or with the admission that turned it away. */
  lemma LastOfRequest(c: ReliabilityConfig, s: ManagedState, device: DeviceConfig, connected: bool, now: nat,
                      batches: seq<Batch>)
    requires device.enabled && batches != []
    ensures var own := RequestSteps(c, s, device.id, connected, now, JudgeAll(batches));
            && own != []
            && if AnyOk(ReadsResult(c, device, s, connected, now, batches)) then Last(own).RecordSuccess?
               else Last(own).RecordFailure? || (own == [Admit(now)] && !Allows(s.circuit, c.Cooldown(), now))
  {
    if Allows(s.circuit, c.Cooldown(), now) && connected {
      LastOfGranted(c, s, device.id, now, JudgeAll(batches));
    } else {
      LastOfRefused(c, s, device.id, connected, now, JudgeAll(batches));
    }
  }

  /** The record agrees with the outcome of a refresh. */
  predicate Settled(s: ManagedState, good: bool) {
    s.online == good == (s.connection == Connected) && (good ==> s.circuit.state == Closed)
  }

  lemma OutcomeSettles(c: ReliabilityConfig, s: ManagedState, step: Step, good: bool)
    requires if good then step.RecordSuccess?
             else step.RecordFailure? || (step.Admit? && !Allows(s.circuit, c.Cooldown(), step.at))
    ensures Settled(Apply(c, s, step), good)
  {
  }

  /** In every breaker state and for all replies, a request leaves an enabled device online and Connected if some
      reading is good, and neither if none is. */
  lemma OnlineAfterRequest(c: ReliabilityConfig, s: ManagedState, device: DeviceConfig, connected: bool, now: nat,
                           batches: seq<Batch>)
    requires device.enabled && batches != []
    ensures var t := Replay(c, s, RequestSteps(c, s, device.id, connected, now, JudgeAll(batches)));
            t.online == (t.connection == Connected) == AnyOk(ReadsResult(c, device, s, connected, now, batches))
  {
    var own := RequestSteps(c, s, device.id, connected, now, JudgeAll(batches));
    LastOfRequest(c, s, device, connected, now, batches);
    assert |own| == 1 ==> Replay(c, s, Init(own)) == s;
    OutcomeSettles(c, Replay(c, s, Init(own)), Last(own), AnyOk(ReadsResult(c, device, s, connected, now, batches)));
  }

  lemma LoopOutcome(c: ReliabilityConfig, s: ManagedState, replies: seq<Reply>)
    requires replies != []
    ensures var t := Replay(c, s, AttemptSteps(replies));
            t.online == (t.connection == Connected) == replies[Used(replies) - 1].ok
  {
    var n := Used(replies);
    if replies[n - 1].ok {
      FirstSuccess(c, s, replies, n - 1);
    } else {
      TotalFailure(c, s, replies);
    }
  }

  /** What one refresh sees of the world: the clock, the connector's batches, and what its alarm pass takes. */
  datatype Inputs = Inputs(now: nat, batches: seq<Batch>, stamps: seq<Stamp>)

  predicate Suits(c: ReliabilityConfig, device: DeviceConfig, inputs: Inputs) {
    && |inputs.batches| == c.MaxAttempts() && |inputs.stamps| == |device.variables| + 1
    && forall i :: 0 <= i < |inputs.batches| ==> |inputs.batches[i].readings| == |device.variables|
  }

  /** The connection records and the cache. */
  datatype Gateway = Gateway(table: Table, view: View)

  function AfterRefresh(c: ReliabilityConfig, g: Gateway, device: DeviceConfig, connected: bool,
                        inputs: Inputs): Gateway
    requires Suits(c, device, inputs)
  {
    var readings := ReadsResult(c, device, RecordOf(g.table, device.id), connected, inputs.now, inputs.batches);
    var table := AfterRequest(c, g.table, device, connected, inputs.now, JudgeAll(inputs.batches));
    Gateway(table, Refreshed(g.view, device, readings, SnapshotIn(device, table), inputs.stamps))
  }

  /** One refresh of a sweep: the device, whether it has a connector, and what its refresh sees. */
  datatype Job = Job(device: DeviceConfig, connected: bool, inputs: Inputs)

  function Jobs(devices: seq<DeviceConfig>, connectors: set<string>, inputs: seq<Inputs>): (jobs: seq<Job>)
    requires |devices| == |inputs|
    ensures |jobs| == |devices|
    ensures forall k :: 0 <= k < |jobs| ==> jobs[k] == Job(devices[k], devices[k].id in connectors, inputs[k])
  {
    seq(|devices|, k requires 0 <= k < |devices| => Job(devices[k], devices[k].id in connectors, inputs[k]))
  }

  ghost predicate Performs(c: ReliabilityConfig, before: Gateway, job: Job, after: Gateway) {
    Suits(c, job.device, job.inputs) && after == AfterRefresh(c, before, job.device, job.connected, job.inputs)
  }

  /** The stages of a sweep that performs the first n jobs one after the other. */
  ghost predicate IsSweep(c: ReliabilityConfig, jobs: seq<Job>, stages: seq<Gateway>, n: nat) {
    n <= |jobs| && n < |stages| &&
    forall k {:trigger jobs[k]} :: 0 <= k < n ==> Performs(c, stages[k], jobs[k], stages[k + 1])
  }

  lemma SweepPerforms(c: ReliabilityConfig, jobs: seq<Job>, stages: seq<Gateway>, n: nat, k: nat)
    requires k < n && IsSweep(c, jobs, stages, n)
    ensures IsSweep(c, jobs, stages, k) && Performs(c, stages[k], jobs[k], stages[k + 1])
  {
  }

  lemma SweepGrows(c: ReliabilityConfig, jobs: seq<Job>, stages: seq<Gateway>, n: nat, after: Gateway)
    requires n < |jobs| && |stages| == n + 1 && IsSweep(c, jobs, stages, n) && Performs(c, stages[n], jobs[n], after)
    ensures IsSweep(c, jobs, stages + [after], n + 1)
  {
    var longer := stages + [after];
    forall k | 0 <= k < n + 1 ensures Performs(c, longer[k], jobs[k], longer[k + 1]) {
      if k < n {
        SweepPerforms(c, jobs, stages, n, k);
        assert longer[k] == stages[k] && longer[k + 1] == stages[k + 1];
      }
    }
  }

  /** The job leaves its device with a coherent cached state and touches no other cached state. */
  ghost predicate Brings(before: map<string, Snapshot>, id: string, after: map<string, Snapshot>) {
    && id in after && Coherent(after[id])
    && forall other :: other in before && other != id ==> other in after && after[other] == before[other]
  }

  lemma JobBrings(c: ReliabilityConfig, before: Gateway, job: Job, after: Gateway)
    requires Performs(c, before, job, after)
    ensures Brings(before.view.states, job.device.id, after.view.states)
  {
    RefreshIsCoherent(c, before.table, job.device, job.connected, job.inputs.now, job.inputs.batches);
  }

  lemma BroughtStays(before: map<string, Snapshot>, id: string, after: map<string, Snapshot>, other: string)
    requires Brings(before, id, after) && other in before && Coherent(before[other])
    ensures other in after && Coherent(after[other])
  {
  }

  lemma {:induction false} BroughtThrough(ids: seq<string>, states: seq<map<string, Snapshot>>, n: nat, i: nat)
    requires i < n <= |ids| < |states|
    requires forall k {:trigger ids[k]} :: 0 <= k < n ==> Brings(states[k], ids[k], states[k + 1])
    ensures ids[i] in states[n] && Coherent(states[n][ids[i]])
  {
    assert Brings(states[n - 1], ids[n - 1], states[n]);
    if i < n - 1 {
      BroughtThrough(ids, states, n - 1, i);
      BroughtStays(states[n - 1], ids[n - 1], states[n], ids[i]);
    }
  }

  /** After a sweep every device it refreshed has a coherent cached state, even where ids repeat. */
  lemma SweepIsCoherent(c: ReliabilityConfig, jobs: seq<Job>, stages: seq<Gateway>, i: nat)
    requires i < |jobs| < |stages| && IsSweep(c, jobs, stages, |jobs|)
    ensures var states := stages[|jobs|].view.states;
            jobs[i].device.id in states && Coherent(states[jobs[i].device.id])
  {
    var ids := seq(|jobs|, k requires 0 <= k < |jobs| => jobs[k].device.id);
    var states := seq(|stages|, k requires 0 <= k < |stages| => stages[k].view.states);
    forall k | 0 <= k < |jobs| ensures Brings(states[k], ids[k], states[k + 1]) {
      JobBrings(c, stages[k], jobs[k], stages[k + 1]);
    }
    BroughtThrough(ids, states, |jobs|, i);
  }

  class DeviceStateCache {
    const config: ConfigCell
    const connections: DeviceConnectionManager
    var states: map<string, Snapshot>
    var active: map<string, Signature>
    /** The calls made to the alarm store's append, in order. */
    var attempted: seq<Attempted>

    ghost function Contents(): View
      reads this
    {
      View(states, Tracker(active, attempted))
    }

    constructor (config: ConfigCell, connections: DeviceConnectionManager)
      ensures this.config == config && this.connections == connections
      ensures Contents() == View(map[], Tracker(map[], []))
    {
      this.config := config;
      this.connections := connections;
      states, active, attempted := map[], map[], [];
    }

    method AppendAlarmIfChanged(key: string, signature: Signature, alarm: Alarm)
      modifies this`active, this`attempted
      ensures Tracker(active, attempted) == Track(old(Tracker(active, attempted)), Saw(key, Abnormal(signature), alarm))
    {
      if key in active && active[key] == signature {
        return;
      }
      active := active[key := signature];
      attempted := attempted + [Attempted(key, signature, alarm)];
    }

    method ClearAlarmState(key: string)
      modifies this`active
      ensures active == old(active) - {key}
    {
      active := active - {key};
    }

    method ClearCachedAlarm(deviceId: string, variable: string) returns (ok: bool)
      modifies this`active
      ensures ok == (deviceId != "")
      ensures active == if deviceId == "" then old(active)
                        else old(active) - {KeyOf(deviceId, if variable == "" then COMMUNICATION else variable)}
    {
      if deviceId == "" {
        return false;
      }
      if variable == "" {
        ClearAlarmState(deviceId + "|" + COMMUNICATION);
        return true;
      }
      ClearAlarmState(deviceId + "|" + variable);
      return true;
    }

    method Reset()
      modifies this`states, this`active
      ensures states == map[] && active == map[]
    {
      states := map[];
      active := map[];
    }

    /** The cache's own threshold chain. */
    method Classify(rule: Rule, value: real) returns (verdict: Option<Verdict>)
      ensures verdict == CacheVerdict(rule, value)
    {
      var level, code, threshold := WARN, VARIABLE_BELOW_WARN_MIN, None;
      if rule.alarmMax.Some? && value > rule.alarmMax.value {
        level, code, threshold := CRITICAL, VARIABLE_ABOVE_ALARM_MAX, rule.alarmMax;
      } else if rule.alarmMin.Some? && value < rule.alarmMin.value {
        level, code, threshold := CRITICAL, VARIABLE_BELOW_ALARM_MIN, rule.alarmMin;
      } else if rule.warnMax.Some? && value > rule.warnMax.value {
        level, code, threshold := WARN, VARIABLE_ABOVE_WARN_MAX, rule.warnMax;
      } else if rule.warnMin.Some? && value < rule.warnMin.value {
        level, code, threshold := WARN, VARIABLE_BELOW_WARN_MIN, rule.warnMin;
      }
      verdict := if threshold.None? then None else Some(Verdict(Signature(level, code), threshold.value));
    }

    /** The pass over the readings that collects the cached variables and the overall outcome. */
    method Collect(device: DeviceConfig, readings: seq<ReadResult>)
      returns (variables: map<string, CachedVariable>, anyOk: bool, allOk: bool, firstError: string)
      requires |readings| == |device.variables|
      ensures variables == CacheVariables(device.variables, readings, |readings|)
      ensures anyOk == AnyOk(readings) && allOk == AllOk(readings) && firstError == FirstError(readings, |readings|)
    {
      variables, anyOk, allOk, firstError := map[], false, readings != [], "";
      for k := 0 to |readings|
        invariant variables == CacheVariables(device.variables, readings, k)
        invariant anyOk == exists i :: 0 <= i < k && readings[i].ok
        invariant allOk == (readings != [] && forall i :: 0 <= i < k ==> readings[i].ok)
        invariant firstError == FirstError(readings, k)
      {
        variables := variables[device.variables[k].name := CachedOf(readings[k])];
        anyOk := anyOk || readings[k].ok;
        allOk := allOk && readings[k].ok;
        if !readings[k].ok && firstError == "" {
          firstError := if readings[k].error == "" then readings[k].statusCode else readings[k].error;
        }
      }
    }

    /** The cached state of one device from its readings. */
    method CacheState(device: DeviceConfig, readings: seq<ReadResult>, health: ManagedState)
      returns (anyOk: bool, firstError: string)
      requires |readings| == |device.variables|
      modifies this`states
      ensures anyOk == AnyOk(readings) && firstError == FirstError(readings, |readings|)
      ensures states == old(states)[device.id := SnapshotOf(device, readings, health)]
    {
      var variables, allOk;
      variables, anyOk, allOk, firstError := Collect(device, readings);
      states := states[device.id := Snapshot(anyOk, health.connection, health.online, FixedStatus(allOk, anyOk),
                                             if firstError == "" then health.lastError else firstError, variables)];
    }

    /** The alarm pass for one variable. */
    method CheckVariable(device: DeviceConfig, readings: seq<ReadResult>, k: nat, stamp: Stamp, allFailed: bool)
      requires k < |readings| == |device.variables|
      requires allFailed == AllFailed(readings)
      modifies this`active, this`attempted
      ensures Tracker(active, attempted) ==
              Track(old(Tracker(active, attempted)), VariableEvent(device, readings, k, stamp))
    {
      var variable, reading := device.variables[k], readings[k];
      var key := device.id + "|" + variable.name;
      if !reading.ok {
        if !allFailed {
          AppendAlarmIfChanged(key, Signature(ERROR, OPCUA_READ_FAILED),
                               Alarm(device.id, Signature(ERROR, OPCUA_READ_FAILED), stamp.clock,
                                     Failure(reading.error), variable.nodeId, None, None));
        }
        return;
      }
      var value := NumericValue(reading.value);
      if value.None? {
        ClearAlarmState(key);
        return;
      }
      var verdict := Classify(variable.rule, value.value);
      if verdict.None? {
        ClearAlarmState(key);
        return;
      }
      AppendAlarmIfChanged(key, verdict.value.signature,
                           Alarm(device.id, verdict.value.signature, stamp.clock,
                                 Limit(variable.name, stamp.value, stamp.threshold), variable.nodeId, value,
                                 Some(verdict.value.threshold)));
    }

    /** The alarm pass for the device as a whole. */
    method CheckCommunication(device: DeviceConfig, readings: seq<ReadResult>, stamp: Stamp, allFailed: bool,
                              firstError: string)
      requires |readings| == |device.variables|
      requires allFailed == AllFailed(readings) && firstError == FirstError(readings, |readings|)
      modifies this`active, this`attempted
      ensures Tracker(active, attempted) ==
              Track(old(Tracker(active, attempted)), CommunicationEvent(device, readings, stamp))
    {
      var key := device.id + "|" + COMMUNICATION;
      if allFailed {
        AppendAlarmIfChanged(key, Signature(ERROR, COMMUNICATION_ERROR),
                             Alarm(device.id, Signature(ERROR, COMMUNICATION_ERROR), stamp.clock,
                                   Failure(firstError), device.endpoint, None, None));
      } else {
        ClearAlarmState(key);
      }
    }

    /** The alarm pass of one refresh: the device as a whole, then every variable. */
    method RaiseAlarms(device: DeviceConfig, readings: seq<ReadResult>, stamps: seq<Stamp>, allFailed: bool,
                       firstError: string)
      requires |readings| == |device.variables| && |stamps| == |readings| + 1
      requires allFailed == AllFailed(readings) && firstError == FirstError(readings, |readings|)
      modifies this`active, this`attempted
      ensures Tracker(active, attempted) ==
              TrackAll(old(Tracker(active, attempted)), RefreshEvents(device, readings, |readings|, stamps))
    {
      ghost var tracker := Tracker(active, attempted);
      TrackFirst(tracker, device, readings, stamps);
      CheckCommunication(device, readings, stamps[0], allFailed, firstError);
      for k := 0 to |readings|
        invariant Tracker(active, attempted) == TrackAll(tracker, RefreshEvents(device, readings, k, stamps))
      {
        TrackNext(tracker, device, readings, k, stamps);
        CheckVariable(device, readings, k, stamps[k + 1], allFailed);
      }
    }

    /** The part of a refresh that comes after the connection snapshot. */
    method Take(device: DeviceConfig, readings: seq<ReadResult>, health: ManagedState, stamps: seq<Stamp>)
      requires |readings| == |device.variables| && |stamps| == |readings| + 1
      modifies this`states, this`active, this`attempted
      ensures Contents() == Refreshed(old(Contents()), device, readings, health, stamps)
    {
      var anyOk, firstError := CacheState(device, readings, health);
      RaiseAlarms(device, readings, stamps, readings != [] && !anyOk, firstError);
    }

    method RefreshConfiguredDevice(device: DeviceConfig, inputs: Inputs) returns (readings: seq<ReadResult>)
      requires connections.config == config && connections.Valid() && Suits(config.value.reliability, device, inputs)
      modifies this, connections`states
      ensures readings == ReadsResult(config.value.reliability, device, old(RecordOf(connections.states, device.id)),
                                      device.id in connections.connectors, inputs.now, inputs.batches)
      ensures Gateway(connections.states, Contents()) ==
              AfterRefresh(config.value.reliability, old(Gateway(connections.states, Contents())), device,
                           device.id in connections.connectors, inputs)
      ensures device.id in states && Coherent(states[device.id])
    {
      RefreshIsCoherent(config.value.reliability, connections.states, device, device.id in connections.connectors,
                        inputs.now, inputs.batches);
      var slept;
      readings, slept := connections.ReadNodes(device, inputs.now, inputs.batches);
      var health := connections.Snapshot(device);
      Take(device, readings, health, inputs.stamps);
    }

    /** One refresh, seen as a job. */
    method PerformJob(job: Job)
      requires connections.config == config && connections.Valid()
      requires Suits(config.value.reliability, job.device, job.inputs)
      requires job.connected == (job.device.id in connections.connectors)
      modifies this, connections`states
      ensures Performs(config.value.reliability, old(Gateway(connections.states, Contents())), job,
                       Gateway(connections.states, Contents()))
    {
      var _ := RefreshConfiguredDevice(job.device, job.inputs);
    }

    /** Refresh every configured device in turn; `inputs` holds what each refresh sees. */
    method RefreshOnce(inputs: seq<Inputs>) returns (ghost stages: seq<Gateway>)
      requires connections.config == config && connections.Valid() && |inputs| == |config.value.devices|
      requires forall i :: 0 <= i < |inputs| ==> Suits(config.value.reliability, config.value.devices[i], inputs[i])
      modifies this, connections`states
      ensures var jobs := if config.value.cacheEnabled
                          then Jobs(config.value.devices, connections.connectors, inputs) else [];
              |stages| == |jobs| + 1 && IsSweep(config.value.reliability, jobs, stages, |jobs|)
      ensures stages[0] == old(Gateway(connections.states, Contents()))
      ensures stages[|stages| - 1] == Gateway(connections.states, Contents())
    {
      stages := [Gateway(connections.states, Contents())];
      if !config.value.cacheEnabled {
        return;
      }
      var jobs := Jobs(config.value.devices, connections.connectors, inputs);
      for k := 0 to |jobs|
        invariant IsSweep(config.value.reliability, jobs, stages, k)
        invariant stages[0] == old(Gateway(connections.states, Contents()))
        invariant |stages| == k + 1 && stages[k] == Gateway(connections.states, Contents())
      {
        PerformJob(jobs[k]);
        ghost var after := Gateway(connections.states, Contents());
        SweepGrows(config.value.reliability, jobs, stages, k, after);
        stages := stages + [after];
      }
    }
  }
}
