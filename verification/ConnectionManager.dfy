/** The connection manager: every request is a sequence of locked steps around unlocked connector calls.
    The clock readings and the connector's answers are inputs of each request. */
module ConnectionManager {
  import opened Config
  import opened DeviceState
  import opened Fleet
  import RetryPolicy

  /** What one connector call answers, and when. */
  datatype Reply = Reply(ok: bool, sentAt: nat, at: nat, error: string, attempts: int, latencyMs: int)

  datatype Result = DeviceDisabled | CircuitOpen | ConnectorNotFound | Answered(reply: Reply)

  datatype ReadResult = ReadResult(ok: bool, value: Value, statusCode: string, error: string, attempts: int)

  /** One answer of the connector to a read of several variables. */
  datatype Batch = Batch(readings: seq<ReadResult>, sentAt: nat, at: nat, latencyMs: int)

  function NoConnector(id: string): string {
    "connector is not configured for device: " + id
  }

  function Record(r: Reply): Step {
    if r.ok then RecordSuccess(r.at, r.attempts, r.latencyMs)
    else RecordFailure(r.at, r.error, r.attempts, r.latencyMs)
  }

  /** Locked steps of the retry loop: attempts go on until the first success or the last reply. */
  function AttemptSteps(replies: seq<Reply>): seq<Step> {
    if replies == [] then []
    else [MarkConnecting(replies[0].sentAt), Record(replies[0])] +
         if replies[0].ok then [] else AttemptSteps(replies[1..])
  }

  /** Locked steps before any connector call: one admission, and the failure of a missing connector. */
  function GateSteps(c: ReliabilityConfig, s: ManagedState, id: string, connected: bool, now: nat): seq<Step> {
    if Allows(s.circuit, c.Cooldown(), now) && !connected
    then [Admit(now), RecordFailure(now, NoConnector(id), 0, -1)]
    else [Admit(now)]
  }

  /** Locked steps of a whole request on an enabled device; the breaker is not asked again between attempts. */
  function RequestSteps(c: ReliabilityConfig, s: ManagedState, id: string, connected: bool, now: nat,
                        replies: seq<Reply>): seq<Step> {
    GateSteps(c, s, id, connected, now) +
    if Allows(s.circuit, c.Cooldown(), now) && connected then AttemptSteps(replies) else []
  }

  /** Number of connector calls the retry loop makes. */
  function Used(replies: seq<Reply>): (n: nat)
    requires replies != []
    ensures 1 <= n <= |replies|
    ensures forall i :: 0 <= i < n - 1 ==> !replies[i].ok
    ensures replies[n - 1].ok || n == |replies|
  {
    if replies[0].ok || |replies| == 1 then 1 else Used(replies[1..]) + 1
  }

  lemma {:induction false} UsedUntil(replies: seq<Reply>, n: nat)
    requires 1 <= n <= |replies|
    requires forall i :: 0 <= i < n - 1 ==> !replies[i].ok
    requires replies[n - 1].ok || n == |replies|
    ensures Used(replies) == n
  {
    if n > 1 {
      assert replies[1..][n - 2] == replies[n - 1];
      UsedUntil(replies[1..], n - 1);
    }
  }

  function Refusal(c: ReliabilityConfig, enabled: bool, s: ManagedState, connected: bool, now: nat): Option<Result> {
    if !enabled then Some(DeviceDisabled)
    else if !Allows(s.circuit, c.Cooldown(), now) then Some(CircuitOpen)
    else if !connected then Some(ConnectorNotFound)
    else None
  }

  function RequestResult(c: ReliabilityConfig, enabled: bool, s: ManagedState, connected: bool, now: nat,
                         replies: seq<Reply>): Result
    requires replies != []
  {
    match Refusal(c, enabled, s, connected, now)
    case Some(refused) => refused
    case None => Answered(replies[Used(replies) - 1])
  }

  /** The table after a request: only the requested device moves, by the steps of that request. */
  function AfterRequest(c: ReliabilityConfig, table: Table, device: DeviceConfig, connected: bool, now: nat,
                        replies: seq<Reply>): Table {
    if !device.enabled then table
    else
      var s := RecordOf(table, device.id);
      table[device.id := Replay(c, s, RequestSteps(c, s, device.id, connected, now, replies))]
  }

  lemma ReplayAttempt(c: ReliabilityConfig, s: ManagedState, a: Step, b: Step, rest: seq<Step>)
    ensures Replay(c, s, [a]) == Apply(c, s, a)
    ensures Replay(c, s, [a] + rest) == Replay(c, Apply(c, s, a), rest)
    ensures Replay(c, s, [a, b] + rest) == Replay(c, Apply(c, Apply(c, s, a), b), rest)
  {
    assert Init([a]) == [] && Init([a, b]) == [a];
    ReplayConcat(c, s, [a], rest);
    ReplayConcat(c, s, [a, b], rest);
  }

  lemma RequestReplay(c: ReliabilityConfig, s: ManagedState, id: string, connected: bool, now: nat, replies: seq<Reply>)
    ensures var gate := GateSteps(c, s, id, connected, now);
            Replay(c, s, RequestSteps(c, s, id, connected, now, replies)) ==
            Replay(c, Replay(c, s, gate), if Allows(s.circuit, c.Cooldown(), now) && connected
                   then AttemptSteps(replies) else [])
  {
    ReplayConcat(c, s, GateSteps(c, s, id, connected, now),
                 if Allows(s.circuit, c.Cooldown(), now) && connected then AttemptSteps(replies) else []);
  }

  function AfterAttempt(c: ReliabilityConfig, s: ManagedState, reply: Reply): ManagedState {
    Apply(c, Apply(c, s, MarkConnecting(reply.sentAt)), Record(reply))
  }

  /** Where the retry loop leaves a record. */
  function Retried(c: ReliabilityConfig, s: ManagedState, replies: seq<Reply>): ManagedState
    decreases replies
  {
    if replies == [] then s
    else if replies[0].ok then AfterAttempt(c, s, replies[0])
    else Retried(c, AfterAttempt(c, s, replies[0]), replies[1..])
  }

  lemma RetriedFrom(c: ReliabilityConfig, s: ManagedState, replies: seq<Reply>, k: nat)
    requires k < |replies|
    ensures Retried(c, s, replies[k..]) ==
            if replies[k].ok then AfterAttempt(c, s, replies[k])
              else Retried(c, AfterAttempt(c, s, replies[k]), replies[k + 1..])
  {
    assert replies[k..][1..] == replies[k + 1..];
  }

  lemma {:induction false} RetriedReplays(c: ReliabilityConfig, s: ManagedState, replies: seq<Reply>)
    ensures Retried(c, s, replies) == Replay(c, s, AttemptSteps(replies))
    decreases replies
  {
    if replies != [] {
      ReplayAttempt(c, s, MarkConnecting(replies[0].sentAt), Record(replies[0]),
                    if replies[0].ok then [] else AttemptSteps(replies[1..]));
      RetriedReplays(c, AfterAttempt(c, s, replies[0]), replies[1..]);
    }
  }

  /** A request is its gate followed, when let through, by the retry loop. */
  lemma RequestOutcome(c: ReliabilityConfig, s: ManagedState, id: string, connected: bool, now: nat,
                       replies: seq<Reply>)
    ensures var gated := Replay(c, s, GateSteps(c, s, id, connected, now));
            Replay(c, s, RequestSteps(c, s, id, connected, now, replies)) ==
            if Allows(s.circuit, c.Cooldown(), now) && connected then Retried(c, gated, replies) else gated
  {
    RequestReplay(c, s, id, connected, now, replies);
    RetriedReplays(c, Replay(c, s, GateSteps(c, s, id, connected, now)), replies);
  }

  /** A retry loop that fails throughout makes every call and adds each one to the failure run. */
  lemma {:induction false} TotalFailure(c: ReliabilityConfig, s: ManagedState, replies: seq<Reply>)
    requires replies != []
    requires forall i :: 0 <= i < |replies| ==> !replies[i].ok
    ensures Used(replies) == |replies|
    ensures var t := Replay(c, s, AttemptSteps(replies));
            t.consecutiveFailures == s.consecutiveFailures + |replies| && !t.online &&
              t.connection in {Faulted, Reconnecting} && t.lastError == Last(replies).error
    decreases replies
  {
    var mark, record := MarkConnecting(replies[0].sentAt), Record(replies[0]);
    ReplayAttempt(c, s, mark, record, AttemptSteps(replies[1..]));
    if |replies| > 1 {
      TotalFailure(c, Apply(c, Apply(c, s, mark), record), replies[1..]);
    }
  }

  /** A success at any attempt ends the loop with the device connected and the breaker closed. */
  lemma {:induction false} FirstSuccess(c: ReliabilityConfig, s: ManagedState, replies: seq<Reply>, k: nat)
    requires k < |replies| && replies[k].ok
    requires forall i :: 0 <= i < k ==> !replies[i].ok
    ensures Used(replies) == k + 1
    ensures var t := Replay(c, s, AttemptSteps(replies));
            t.online && t.connection == Connected && t.consecutiveFailures == 0 && t.circuit.state == Closed
    decreases replies
  {
    var mark, record := MarkConnecting(replies[0].sentAt), Record(replies[0]);
    ReplayAttempt(c, s, mark, record, if replies[0].ok then [] else AttemptSteps(replies[1..]));
    if k > 0 {
      FirstSuccess(c, Apply(c, Apply(c, s, mark), record), replies[1..], k - 1);
    }
  }

  /** Some interleaving of locked steps since the last reset leads to this record, so its fields follow
      from an outcome history and its phase is sound. */
  ghost predicate Reachable(c: ReliabilityConfig, s: ManagedState) {
    exists steps: seq<Step> :: s == Replay(c, Fresh(true), steps)
  }

  lemma RequestKeepsReachable(c: ReliabilityConfig, s: ManagedState, id: string, connected: bool, now: nat,
                              replies: seq<Reply>)
    requires Reachable(c, s)
    ensures Reachable(c, Replay(c, s, RequestSteps(c, s, id, connected, now, replies)))
  {
    var steps :| s == Replay(c, Fresh(true), steps);
    ReplayConcat(c, Fresh(true), steps, RequestSteps(c, s, id, connected, now, replies));
  }

  /** What every configured device's record satisfies between requests. */
  ghost predicate RecordSound(c: ReliabilityConfig, device: DeviceConfig, table: Table) {
    device.id in table &&
    if device.enabled then Reachable(c, table[device.id])
    else table[device.id].connection == Disabled && !table[device.id].online
  }

  /** Devices that share an id share a record, about which nothing is said. */
  ghost predicate RecordsSound(config: AppConfig, table: Table) {
    forall i :: 0 <= i < |config.devices| && Sole(config.devices, i) ==>
      RecordSound(config.reliability, config.devices[i], table)
  }

  lemma RequestKeepsRecordsSound(config: AppConfig, table: Table, k: nat, connected: bool, now: nat,
                                 replies: seq<Reply>)
    requires RecordsSound(config, table) && k < |config.devices|
    ensures RecordsSound(config, AfterRequest(config.reliability, table, config.devices[k], connected, now, replies))
  {
    var c, device := config.reliability, config.devices[k];
    var after := AfterRequest(c, table, device, connected, now, replies);
    forall i | 0 <= i < |config.devices| && Sole(config.devices, i) ensures RecordSound(c, config.devices[i], after) {
      assert RecordSound(c, config.devices[i], table);
      if i == k && device.enabled {
        RequestKeepsReachable(c, table[device.id], device.id, connected, now, replies);
      }
    }
  }

  /** The records after a reset has gone through the first n devices. */
  function FreshTable(devices: seq<DeviceConfig>, n: nat): Table
    requires n <= |devices|
  {
    if n == 0 then map[] else FreshTable(devices, n - 1)[devices[n - 1].id := Fresh(devices[n - 1].enabled)]
  }

  lemma {:induction false} FreshKeys(devices: seq<DeviceConfig>, n: nat)
    requires n <= |devices|
    ensures FreshTable(devices, n).Keys == set k | 0 <= k < n :: devices[k].id
  {
    if n > 0 {
      FreshKeys(devices, n - 1);
    }
  }

  /** Where ids repeat, the last device wins; a device with an id of its own starts afresh. */
  lemma {:induction false} FreshAt(devices: seq<DeviceConfig>, n: nat, i: nat)
    requires i < n <= |devices| && LastOfId(devices, i)
    ensures devices[i].id in FreshTable(devices, n)
    ensures FreshTable(devices, n)[devices[i].id] == Fresh(devices[i].enabled)
  {
    if i < n - 1 {
      FreshAt(devices, n - 1, i);
    }
  }

  lemma FreshRecordsSound(config: AppConfig)
    ensures RecordsSound(config, FreshTable(config.devices, |config.devices|))
  {
    var table := FreshTable(config.devices, |config.devices|);
    assert Replay(config.reliability, Fresh(true), []) == Fresh(true);
    forall i | 0 <= i < |config.devices| && Sole(config.devices, i)
      ensures RecordSound(config.reliability, config.devices[i], table)
    {
      FreshAt(config.devices, |config.devices|, i);
    }
  }

  function Backoff(c: ReliabilityConfig, backOff: bool, retries: nat): nat {
    if backOff then RetryPolicy.TotalBackoff(c, retries) else 0
  }

  predicate AnyOk(readings: seq<ReadResult>) {
    exists i :: 0 <= i < |readings| && readings[i].ok
  }

  function FirstReadError(readings: seq<ReadResult>): string {
    if readings == [] then "all reads failed"
    else if !readings[0].ok && readings[0].error != "" then readings[0].error
    else FirstReadError(readings[1..])
  }

  /** How the manager judges one batch: a single good read makes it a success. */
  function Judge(b: Batch): Reply {
    Reply(AnyOk(b.readings), b.sentAt, b.at, FirstReadError(b.readings),
          if b.readings == [] then 0 else b.readings[0].attempts, b.latencyMs)
  }

  function JudgeAll(batches: seq<Batch>): (r: seq<Reply>)
    ensures |r| == |batches|
    ensures forall i :: 0 <= i < |r| ==> r[i] == Judge(batches[i])
  {
    seq(|batches|, i requires 0 <= i < |batches| => Judge(batches[i]))
  }

  function Refused(status: string, error: string): ReadResult {
    ReadResult(false, Null, status, error, 0)
  }

  function RefusedReads(device: DeviceConfig, refusal: Result): (readings: seq<ReadResult>)
    ensures |readings| == |device.variables|
    ensures forall i :: 0 <= i < |readings| ==> !readings[i].ok
  {
    var reading := match refusal
      case DeviceDisabled => Refused("BadDeviceDisabled", "device is disabled: " + device.id)
      case CircuitOpen => Refused("CircuitOpen", "circuit breaker is open for device: " + device.id)
      case _ => Refused("ConnectorNotFound", NoConnector(device.id));
    seq(|device.variables|, _ => reading)
  }

  /** The readings handed back by a request for several variables. */
  function ReadsResult(c: ReliabilityConfig, device: DeviceConfig, s: ManagedState, connected: bool, now: nat,
                       batches: seq<Batch>): (readings: seq<ReadResult>)
    requires batches != []
    ensures (forall i :: 0 <= i < |batches| ==> |batches[i].readings| == |device.variables|) ==>
              |readings| == |device.variables|
  {
    match Refusal(c, device.enabled, s, connected, now)
    case Some(refused) => RefusedReads(device, refused)
    case None => batches[Used(JudgeAll(batches)) - 1].readings
  }

  /** With a connector, a request for several variables is answered by its last used batch or by the breaker. */
  lemma ConnectedReads(c: ReliabilityConfig, device: DeviceConfig, s: ManagedState, now: nat, batches: seq<Batch>)
    requires device.enabled && batches != []
    ensures ReadsResult(c, device, s, true, now, batches) ==
            if Allows(s.circuit, c.Cooldown(), now) then batches[Used(JudgeAll(batches)) - 1].readings
              else RefusedReads(device, CircuitOpen)
  {
  }

  /** What callers see of a record. */
  function HealthOf(device: DeviceConfig, s: ManagedState): ManagedState {
    s.(connection := if device.enabled then s.connection else Disabled, online := device.enabled && s.online)
  }

  /** The same for a device that may have no record yet. */
  function SnapshotIn(device: DeviceConfig, table: Table): ManagedState {
    HealthOf(device, if device.id in table then table[device.id] else Fresh(device.enabled))
  }

  class DeviceConnectionManager {
    const config: ConfigCell
    var retryPolicy: ReliabilityConfig
    var states: Table
    var connectors: set<string>

    /** The retry policy is a copy taken at the last reset. */
    ghost predicate Valid()
      reads this, config
    {
      retryPolicy == config.value.reliability
    }

    ghost predicate CoversConfig()
      reads this, config
    {
      states.Keys == connectors == DeviceIds(config.value.devices)
    }

    constructor (config: ConfigCell)
      ensures this.config == config && Valid() && CoversConfig()
      ensures states == FreshTable(config.value.devices, |config.value.devices|)
    {
      this.config := config;
      retryPolicy := config.value.reliability;
      states := map[];
      connectors := {};
      new;
      Reset();
    }

    method Reset()
      modifies this
      ensures Valid() && CoversConfig()
      ensures states == FreshTable(config.value.devices, |config.value.devices|)
    {
      retryPolicy := config.value.reliability;
      states := map[];
      connectors := {};
      var devices := config.value.devices;
      for i := 0 to |devices|
        invariant retryPolicy == config.value.reliability
        invariant states == FreshTable(devices, i) && connectors == states.Keys
      {
        states := states[devices[i].id := Fresh(devices[i].enabled)];
        connectors := connectors + {devices[i].id};
      }
      FreshKeys(devices, |devices|);
    }

    method StateForLocked(device: DeviceConfig)
      modifies this`states
      ensures states == old(states)[device.id := if device.enabled then old(RecordOf(states, device.id))
                                                 else old(RecordOf(states, device.id)).(connection := Disabled,
                                                                                        online := false)]
    {
      if device.id !in states {
        states := states[device.id := Fresh(true)];
      }
      if !device.enabled {
        states := states[device.id := states[device.id].(connection := Disabled, online := false)];
      }
    }

    method AllowRequest(circuit: Circuit, now: nat) returns (allowed: bool, after: Circuit)
      ensures allowed == Allows(circuit, config.value.reliability.Cooldown(), now)
      ensures after == CircuitAfterAdmission(circuit, config.value.reliability.Cooldown(), now)
    {
      after := circuit;
      if circuit.state != Open {
        return true, after;
      }
      var cooldown := config.value.reliability.Cooldown();
      if now - circuit.openedAt >= cooldown {
        after := circuit.(state := HalfOpen);
        return true, after;
      }
      return false, after;
    }

    /** The admission section that opens every request. */
    method RequestAllowed(device: DeviceConfig, now: nat) returns (allowed: bool)
      requires device.enabled
      modifies this`states
      ensures allowed == Allows(old(RecordOf(states, device.id)).circuit, config.value.reliability.Cooldown(), now)
      ensures states == ApplyTo(config.value.reliability, old(states), DeviceStep(device.id, true, Admit(now)))
    {
      StateForLocked(device);
      var state := states[device.id];
      var circuit;
      allowed, circuit := AllowRequest(state.circuit, now);
      state := state.(circuit := circuit);
      if !allowed {
        state := state.(connection := Faulted, online := false);
      }
      states := states[device.id := state];
    }

    method MarkDevice(device: DeviceConfig, now: nat)
      modifies this`states
      ensures states ==
              ApplyTo(config.value.reliability, old(states), DeviceStep(device.id, device.enabled, MarkConnecting(now)))
    {
      StateForLocked(device);
      if !device.enabled {
        return;
      }
      var state := states[device.id];
      states := states[device.id := state.(connection := if state.consecutiveFailures > 0 then Reconnecting
                                           else Connecting)];
    }

    method RecordOk(device: DeviceConfig, now: nat, attempts: int, latencyMs: int)
      modifies this`states
      ensures states == ApplyTo(config.value.reliability, old(states),
                                DeviceStep(device.id, device.enabled, RecordSuccess(now, attempts, latencyMs)))
    {
      StateForLocked(device);
      if !device.enabled {
        return;
      }
      var state := states[device.id];
      state := state.(online := true, connection := Connected, consecutiveFailures := 0);
      state := state.(lastSuccessAt := Some(now), lastError := "", attempts := attempts, latencyMs := latencyMs);
      state := state.(nextRetryDelayMs := 0, circuit := state.circuit.(state := Closed));
      states := states[device.id := state];
    }

    method CircuitFailure(circuit: Circuit, failures: nat, now: nat) returns (after: Circuit)
      ensures after == CircuitAfterFailure(circuit, failures, config.value.reliability.Threshold(), now)
    {
      after := circuit;
      if failures >= config.value.reliability.Threshold() {
        if after.state != Open {
          after := after.(openedAt := now);
        }
        after := after.(state := Open);
        return;
      }
      if after.state == HalfOpen {
        after := Circuit(Open, now);
        return;
      }
      after := after.(state := Closed);
    }

    method RecordError(device: DeviceConfig, now: nat, error: string, attempts: int, latencyMs: int)
      requires Valid()
      modifies this`states
      ensures states == ApplyTo(config.value.reliability, old(states),
                                DeviceStep(device.id, device.enabled, RecordFailure(now, error, attempts, latencyMs)))
    {
      StateForLocked(device);
      if !device.enabled {
        return;
      }
      var state := states[device.id];
      if state.online {
        state := state.(reconnectCount := state.reconnectCount + 1);
      } else if state.consecutiveFailures == 0 {
        state := state.(reconnectCount := state.reconnectCount + 1);
      }
      state := state.(online := false, consecutiveFailures := state.consecutiveFailures + 1);
      state := state.(lastErrorAt := Some(now), lastError := error, attempts := attempts, latencyMs := latencyMs);
      var delay := RetryPolicy.DelayMs(retryPolicy, state.consecutiveFailures);
      var circuit := CircuitFailure(state.circuit, state.consecutiveFailures, now);
      state := state.(nextRetryDelayMs := delay as nat, circuit := circuit);
      state := state.(connection := if circuit.state == Open then Faulted else Reconnecting);
      states := states[device.id := state];
    }

    /** One marked and recorded connector call. */
    method Attempt(device: DeviceConfig, reply: Reply)
      requires Valid() && device.enabled
      modifies this`states
      ensures states ==
              old(states)[device.id := AfterAttempt(config.value.reliability, old(RecordOf(states, device.id)), reply)]
    {
      MarkDevice(device, reply.sentAt);
      if reply.ok {
        RecordOk(device, reply.at, reply.attempts, reply.latencyMs);
      } else {
        RecordError(device, reply.at, reply.error, reply.attempts, reply.latencyMs);
      }
    }

    /** An attempt, seen from the table before the loop. */
    method TrackAttempt(device: DeviceConfig, ghost table: Table, ghost current: ManagedState, reply: Reply)
      returns (ghost after: ManagedState)
      requires Valid() && device.enabled && states == table[device.id := current]
      modifies this`states
      ensures after == AfterAttempt(config.value.reliability, current, reply)
      ensures states == table[device.id := after]
    {
      Attempt(device, reply);
      after := AfterAttempt(config.value.reliability, current, reply);
    }

    /** The opening of every request: refuse a disabled device, ask the breaker, look up the connector. */
    method Gate(device: DeviceConfig, now: nat) returns (refusal: Option<Result>)
      requires Valid()
      modifies this`states
      ensures refusal ==
              Refusal(config.value.reliability, device.enabled, old(RecordOf(states, device.id)),
                      device.id in connectors, now)
      ensures states == if !device.enabled then old(states) else
                old(states)[device.id := Replay(config.value.reliability, old(RecordOf(states, device.id)),
                  GateSteps(config.value.reliability, old(RecordOf(states, device.id)), device.id,
                            device.id in connectors, now))]
    {
      if !device.enabled {
        return Some(DeviceDisabled);
      }
      ghost var c, s := config.value.reliability, RecordOf(states, device.id);
      ghost var failure := RecordFailure(now, NoConnector(device.id), 0, -1);
      assert [Admit(now), failure] + [] == [Admit(now), failure];
      ReplayAttempt(c, s, Admit(now), failure, []);
      var allowed := RequestAllowed(device, now);
      if !allowed {
        return Some(CircuitOpen);
      }
      if device.id !in connectors {
        RecordError(device, now, NoConnector(device.id), 0, -1);
        return Some(ConnectorNotFound);
      }
      return None;
    }

    /** The retry loop of both read requests: at most one call per reply, backing off between failures. */
    method RetryLoop(device: DeviceConfig, replies: seq<Reply>, backOff: bool) returns (last: Reply, slept: nat)
      requires Valid() && device.enabled && device.id in states
      requires |replies| == config.value.reliability.MaxAttempts()
      modifies this`states
      ensures last == replies[Used(replies) - 1]
      ensures states == old(states)[device.id := Retried(config.value.reliability, old(states[device.id]), replies)]
      ensures slept == Backoff(config.value.reliability, backOff, Used(replies) - 1)
    {
      ghost var c, table, s := config.value.reliability, states, states[device.id];
      ghost var current, goal := s, Retried(c, s, replies);
      last, slept := replies[0], 0;
      assert replies[0..] == replies && table == table[device.id := s];
      var maxAttempts := retryPolicy.MaxRetries() + 1;
      var attempt := 1;
      while attempt <= maxAttempts
        invariant 1 <= attempt <= maxAttempts + 1
        invariant states == table[device.id := current]
        invariant Retried(c, current, replies[attempt - 1..]) == goal
        invariant forall i :: 0 <= i < attempt - 1 ==> !replies[i].ok
        invariant attempt > 1 ==> last == replies[attempt - 2]
        invariant slept == Backoff(c, backOff, if attempt <= maxAttempts then attempt - 1 else maxAttempts - 1)
      {
        last := replies[attempt - 1];
        RetriedFrom(c, current, replies, attempt - 1);
        current := TrackAttempt(device, table, current, last);
        if last.ok {
          UsedUntil(replies, attempt);
          return;
        }
        if attempt < maxAttempts && backOff {
          var delay := RetryPolicy.DelayMs(retryPolicy, attempt);
          slept := slept + delay as nat;
        }
        attempt := attempt + 1;
      }
      UsedUntil(replies, maxAttempts);
    }

    /** Read one variable, retrying with backoff. */
    method ReadNode(device: DeviceConfig, now: nat, replies: seq<Reply>) returns (result: Result, slept: nat)
      requires Valid()
      requires |replies| == config.value.reliability.MaxAttempts()
      modifies this`states
      ensures result == RequestResult(config.value.reliability, device.enabled, old(RecordOf(states, device.id)),
                                      device.id in connectors, now, replies)
      ensures states ==
              AfterRequest(config.value.reliability, old(states), device, device.id in connectors, now, replies)
      ensures slept == if result.Answered? then RetryPolicy.TotalBackoff(config.value.reliability, Used(replies) - 1)
              else 0
    {
      ghost var c, s := config.value.reliability, RecordOf(states, device.id);
      var refusal := Gate(device, now);
      RequestOutcome(c, s, device.id, device.id in connectors, now, replies);
      if refusal.Some? {
        return refusal.value, 0;
      }
      var last;
      last, slept := RetryLoop(device, replies, true);
      result := Answered(last);
    }

    /** Read several variables at once; one good read makes the attempt a success. */
    method ReadNodes(device: DeviceConfig, now: nat, batches: seq<Batch>)
      returns (readings: seq<ReadResult>, slept: nat)
      requires Valid()
      requires |batches| == config.value.reliability.MaxAttempts()
      requires forall i :: 0 <= i < |batches| ==> |batches[i].readings| == |device.variables|
      modifies this`states
      ensures readings ==
              ReadsResult(config.value.reliability, device, old(RecordOf(states, device.id)), device.id in connectors,
                          now, batches)
      ensures states ==
              AfterRequest(config.value.reliability, old(states), device, device.id in connectors, now,
                           JudgeAll(batches))
      ensures var c := config.value.reliability;
              var refusal := Refusal(c, device.enabled, old(RecordOf(states, device.id)), device.id in connectors, now);
              slept == if refusal == None then Backoff(c, device.variables != [], Used(JudgeAll(batches)) - 1) else 0
    {
      ghost var c, s, replies := config.value.reliability, RecordOf(states, device.id), JudgeAll(batches);
      var refusal := Gate(device, now);
      RequestOutcome(c, s, device.id, device.id in connectors, now, replies);
      if refusal.Some? {
        return RefusedReads(device, refusal.value), 0;
      }
      var last;
      last, slept := RetryLoop(device, JudgeAll(batches), device.variables != []);
      readings := batches[Used(JudgeAll(batches)) - 1].readings;
    }

    /** Requests that call the connector once: write a variable, call a method. */
    method CallOnce(device: DeviceConfig, now: nat, reply: Reply) returns (result: Result)
      requires Valid()
      modifies this`states
      ensures result == RequestResult(config.value.reliability, device.enabled, old(RecordOf(states, device.id)),
                                      device.id in connectors, now, [reply])
      ensures states ==
              AfterRequest(config.value.reliability, old(states), device, device.id in connectors, now, [reply])
    {
      ghost var c, s := config.value.reliability, RecordOf(states, device.id);
      var refusal := Gate(device, now);
      RequestOutcome(c, s, device.id, device.id in connectors, now, [reply]);
      if refusal.Some? {
        return refusal.value;
      }
      Attempt(device, reply);
      return Answered(reply);
    }

    /** Probe the device; a disabled device is only marked as such. */
    method GetHealth(device: DeviceConfig, now: nat, reply: Reply) returns (health: ManagedState)
      requires Valid()
      modifies this`states
      ensures states == if device.enabled
                        then AfterRequest(config.value.reliability, old(states), device, device.id in connectors, now,
                                          [reply])
                        else old(states)[device.id := old(RecordOf(states, device.id)).(connection := Disabled,
                                                                                        online := false)]
      ensures health == HealthOf(device, states[device.id])
    {
      if !device.enabled {
        StateForLocked(device);
        return HealthOf(device, states[device.id]);
      }
      var _ := CallOnce(device, now, reply);
      return Snapshot(device);
    }

    function Snapshot(device: DeviceConfig): ManagedState
      reads this
    {
      SnapshotIn(device, states)
    }
  }
}
