/** The tool server: its methods change configuration, connections, cache and pending operations in place.
    Stopping and restarting the cache worker around a configuration change is the subject of CacheWorker. */
module McpServer {
  import opened Config
  import opened Authorisation
  import opened ConnectionManager
  import opened DeviceState
  import opened Fleet
  import opened OperationIds
  import opened Operations
  import opened Phases
  import opened StateCache

  lemma RuleKeepsRecordsSound(config: AppConfig, table: Table, k: nat, updated: DeviceConfig)
    requires RecordsSound(config, table) && k < |config.devices|
    requires updated.id == config.devices[k].id && updated.enabled == config.devices[k].enabled
    ensures RecordsSound(config.(devices := config.devices[k := updated]), table)
  {
    var c, changed := config.reliability, config.devices[k := updated];
    forall i | 0 <= i < |changed| && Sole(changed, i) ensures RecordSound(c, changed[i], table) {
      assert Sole(config.devices, i) by {
        assert forall j :: 0 <= j < |changed| ==> changed[j].id == config.devices[j].id;
      }
      assert RecordSound(c, config.devices[i], table);
    }
  }

  lemma TouchKeepsRecordsSound(config: AppConfig, table: Table, k: nat)
    requires RecordsSound(config, table) && k < |config.devices| && !config.devices[k].enabled
    ensures var id := config.devices[k].id;
            RecordsSound(config, table[id := RecordOf(table, id).(connection := Disabled, online := false)])
  {
    var id := config.devices[k].id;
    var after := table[id := RecordOf(table, id).(connection := Disabled, online := false)];
    forall i | 0 <= i < |config.devices| && Sole(config.devices, i)
      ensures RecordSound(config.reliability, config.devices[i], after)
    {
      assert RecordSound(config.reliability, config.devices[i], table);
    }
  }

  /** Records and cached states as the server keeps them, whatever requests are made. */
  ghost predicate GatewaySound(config: AppConfig, g: Gateway) {
    && g.table.Keys == DeviceIds(config.devices) && RecordsSound(config, g.table)
    && g.view.states.Keys <= DeviceIds(config.devices)
  }

  lemma JobKeepsSound(config: AppConfig, before: Gateway, job: Job, after: Gateway, k: nat)
    requires k < |config.devices| && job.device == config.devices[k] && job.connected
    requires Performs(config.reliability, before, job, after) && GatewaySound(config, before)
    ensures GatewaySound(config, after)
  {
    assert job.device.id in DeviceIds(config.devices);
    RequestKeepsRecordsSound(config, before.table, k, true, job.inputs.now, JudgeAll(job.inputs.batches));
  }

  lemma {:induction false} SweepKeepsSound(config: AppConfig, jobs: seq<Job>, stages: seq<Gateway>, n: nat)
    requires IsSweep(config.reliability, jobs, stages, n) && |jobs| == |config.devices|
    requires forall k :: 0 <= k < |jobs| ==> jobs[k].device == config.devices[k] && jobs[k].connected
    requires GatewaySound(config, stages[0])
    ensures GatewaySound(config, stages[n])
  {
    if n > 0 {
      var job := jobs[n - 1];
      SweepPerforms(config.reliability, jobs, stages, n, n - 1);
      SweepKeepsSound(config, jobs, stages, n - 1);
      JobKeepsSound(config, stages[n - 1], job, stages[n], n - 1);
    }
  }

  lemma RequestKeepsSound(config: AppConfig, g: Gateway, k: nat, now: nat, replies: seq<Reply>)
    requires k < |config.devices| && GatewaySound(config, g)
    ensures GatewaySound(config,
                         g.(table := AfterRequest(config.reliability, g.table, config.devices[k], true, now, replies)))
  {
    assert config.devices[k].id in DeviceIds(config.devices);
    RequestKeepsRecordsSound(config, g.table, k, true, now, replies);
  }

  /** What a health probe sees: the clock and the connector's answer. */
  datatype Probe = Probe(now: nat, reply: Reply)

  /** A probe is a request of an enabled device; a disabled one is only marked as such. */
  function AfterProbe(c: ReliabilityConfig, table: Table, device: DeviceConfig, probe: Probe): Table {
    if device.enabled then AfterRequest(c, table, device, true, probe.now, [probe.reply])
    else table[device.id := RecordOf(table, device.id).(connection := Disabled, online := false)]
  }

  lemma ProbeKeepsSound(config: AppConfig, g: Gateway, k: nat, probe: Probe)
    requires k < |config.devices| && GatewaySound(config, g)
    ensures GatewaySound(config, g.(table := AfterProbe(config.reliability, g.table, config.devices[k], probe)))
  {
    if config.devices[k].enabled {
      RequestKeepsSound(config, g, k, probe.now, [probe.reply]);
    } else {
      assert config.devices[k].id in DeviceIds(config.devices);
      TouchKeepsRecordsSound(config, g.table, k);
    }
  }

  /** What callers see of device k, a reachable record if the device is enabled and its id is its own. */
  ghost predicate IsHealth(config: AppConfig, k: nat, table: Table, health: ManagedState)
    requires k < |config.devices|
  {
    var device := config.devices[k];
    && device.id in table && health == HealthOf(device, table[device.id])
    && (device.enabled && Sole(config.devices, k) ==> Reachable(config.reliability, health))
    && (!device.enabled ==> health.connection == Disabled && !health.online)
  }

  lemma HealthAfterProbe(config: AppConfig, k: nat, table: Table)
    requires k < |config.devices| && table.Keys == DeviceIds(config.devices) && RecordsSound(config, table)
    ensures IsHealth(config, k, table, HealthOf(config.devices[k], RecordOf(table, config.devices[k].id)))
  {
    assert config.devices[k].id in DeviceIds(config.devices);
    assert Sole(config.devices, k) ==> RecordSound(config.reliability, config.devices[k], table);
  }

  /** The health tells what the probe met: an open breaker or a failure that opens it is Faulted, another failure
      Reconnecting, a success Connected. */
  ghost predicate TellsPhase(c: ReliabilityConfig, before: Table, id: string, probe: Probe, health: ManagedState) {
    var s := RecordOf(before, id);
    var refused := TurnsAway(c, s.circuit, probe.now);
    && health.online == (probe.reply.ok && !refused)
    && health.connection ==
       if refused then Faulted
       else if probe.reply.ok then Connected
       else if s.consecutiveFailures + 1 >= c.circuitFailureThreshold as int then Faulted
       else Reconnecting
  }

  lemma ProbeTellsPhase(config: AppConfig, k: nat, before: Table, probe: Probe)
    requires k < |config.devices| && config.devices[k].enabled && Sole(config.devices, k)
    requires RecordsSound(config, before)
    ensures var device := config.devices[k];
            var after := AfterProbe(config.reliability, before, device, probe);
            TellsPhase(config.reliability, before, device.id, probe, HealthOf(device, RecordOf(after, device.id)))
  {
    var c, id := config.reliability, config.devices[k].id;
    assert RecordSound(c, config.devices[k], before);
    ReachableIsPastThreshold(c, before[id]);
    RequestPhase(c, before[id], id, probe.now, [probe.reply]);
    assert [probe.reply][0].ok == probe.reply.ok;
  }

  /** The first devices are probed in order, each from the table the one before it left. */
  ghost predicate AreProbes(config: AppConfig, probes: seq<Probe>, stages: seq<Table>, health: seq<ManagedState>) {
    && |health| == |probes| <= |config.devices| && |stages| == |probes| + 1
    && forall k {:trigger probes[k]} :: 0 <= k < |probes| ==>
         && stages[k + 1] == AfterProbe(config.reliability, stages[k], config.devices[k], probes[k])
         && IsHealth(config, k, stages[k + 1], health[k])
         && ProbeTells(config, k, stages[k], probes[k], health[k])
  }

  /** For an enabled device with an id of its own. */
  ghost predicate ProbeTells(config: AppConfig, k: nat, before: Table, probe: Probe, health: ManagedState)
    requires k < |config.devices|
  {
    config.devices[k].enabled && Sole(config.devices, k) ==>
      TellsPhase(config.reliability, before, config.devices[k].id, probe, health)
  }

  lemma ProbesGrow(config: AppConfig, probes: seq<Probe>, k: nat, stages: seq<Table>, health: seq<ManagedState>,
                   after: Table, one: ManagedState)
    requires k < |probes| == |config.devices| && AreProbes(config, probes[..k], stages, health)
    requires after == AfterProbe(config.reliability, stages[k], config.devices[k], probes[k])
    requires IsHealth(config, k, after, one) && ProbeTells(config, k, stages[k], probes[k], one)
    ensures AreProbes(config, probes[..k + 1], stages + [after], health + [one])
  {
    var longer, tables, seen := probes[..k + 1], stages + [after], health + [one];
    forall i | 0 <= i < k + 1
      ensures tables[i + 1] == AfterProbe(config.reliability, tables[i], config.devices[i], longer[i])
      ensures IsHealth(config, i, tables[i + 1], seen[i]) && ProbeTells(config, i, tables[i], longer[i], seen[i])
    {
      if i < k {
        assert probes[..k][i] == longer[i];
      }
    }
  }

  lemma PreparedNamesEnabled(s: OpsState, op: Pending, methodName: Option<string>)
    requires PrepareError(s, op.deviceId, op.action, methodName) == None && op.methodName == Stored(methodName)
    ensures NamesEnabled(s.config.devices, op)
  {
  }

  lemma PrepareStep(s: OpsState, t: Timed, op: Pending, id: string, after: OpsState)
    requires t.request.Prepare? && PrepareError(s, t.request.deviceId, t.request.action, t.request.methodName) == None
    requires op ==
             Pending(t.request.deviceId, t.request.action, Stored(t.request.methodName), t.at + LIFETIME_MS, false)
    requires id == OperationId(t.clock, s.counter + 1)
    requires after == OpsState(s.config, s.pending[id := op], s.counter + 1)
    ensures (after, Prepared(id)) == Handle(s, t)
  {
  }

  lemma RemoveStep(s: OpsState, t: Timed, k: nat)
    requires t.request.RemoveDevice? && FindDevice(s.config.devices, t.request.deviceId) == Some(k)
    requires s.config.devices[k].enabled ==> t.request.force
    ensures var devices := s.config.devices;
            Handle(s, t) ==
            (Reconfigured(s, s.config.(devices := devices[..k] + devices[k + 1..])), Changed)
  {
  }

  lemma PrepareRefused(s: OpsState, t: Timed, error: Error)
    requires t.request.Prepare?
    requires PrepareError(s, t.request.deviceId, t.request.action, t.request.methodName) == Some(error)
    ensures (s, Failed(error)) == Handle(s, t)
  {
  }

  lemma ConfiguredSweepKeepsSound(config: AppConfig, inputs: seq<Inputs>, stages: seq<Gateway>)
    requires |inputs| == |config.devices|
    requires IsSweep(config.reliability, Jobs(config.devices, DeviceIds(config.devices), inputs), stages, |inputs|)
    requires GatewaySound(config, stages[0])
    ensures GatewaySound(config, stages[|inputs|])
  {
    assert forall k :: 0 <= k < |config.devices| ==> config.devices[k].id in DeviceIds(config.devices);
    SweepKeepsSound(config, Jobs(config.devices, DeviceIds(config.devices), inputs), stages, |inputs|);
  }

  lemma AllCoherent(config: AppConfig, stages: seq<Gateway>, inputs: seq<Inputs>)
    requires |inputs| == |config.devices| == |stages| - 1
    requires IsSweep(config.reliability, Jobs(config.devices, DeviceIds(config.devices), inputs), stages, |inputs|)
    ensures var states := stages[|inputs|].view.states;
            forall i :: 0 <= i < |inputs| ==> config.devices[i].id in states && Coherent(states[config.devices[i].id])
  {
    var states := stages[|inputs|].view.states;
    forall i | 0 <= i < |inputs| ensures config.devices[i].id in states && Coherent(states[config.devices[i].id]) {
      SweepIsCoherent(config.reliability, Jobs(config.devices, DeviceIds(config.devices), inputs), stages, i);
    }
  }

  class Server {
    const config: ConfigCell
    const connections: DeviceConnectionManager
    const cache: DeviceStateCache
    var pending: map<string, Pending>
    var counter: nat

    ghost function Ops(): OpsState
      reads this, config
    {
      OpsState(config.value, pending, counter)
    }

    ghost function Gates(): Gateway
      reads connections, cache
    {
      Gateway(connections.states, cache.Contents())
    }

    /** Runtime coherence: records and connectors for exactly the configured devices, sound ones for those with
        an id of their own, cached states for configured devices only, and pending operations that name what is
        enabled. */
    ghost predicate Valid()
      reads this, config, connections, cache
    {
      && connections.config == config && cache.config == config && cache.connections == connections
      && connections.Valid() && connections.CoversConfig()
      && GatewaySound(config.value, Gates())
      && PendingNamesEnabled(Ops())
    }

    constructor (value: AppConfig)
      ensures Valid() && Ops() == OpsState(value, map[], 0)
    {
      var cell := new ConfigCell(value);
      var manager := new DeviceConnectionManager(cell);
      config := cell;
      connections := manager;
      cache := new DeviceStateCache(cell, manager);
      pending := map[];
      counter := 0;
      FreshRecordsSound(value);
    }

    method ResetRuntimeAfterConfigChange()
      requires connections.config == config
      modifies this`pending, connections, cache`states, cache`active
      ensures pending == map[]
      ensures connections.Valid() && connections.CoversConfig()
      ensures RecordsSound(config.value, connections.states)
      ensures cache.states == map[] && cache.active == map[]
    {
      connections.Reset();
      FreshRecordsSound(config.value);
      cache.Reset();
      pending := map[];
    }

    /** The configuration change every management tool ends with. */
    method ChangeConfiguration(value: AppConfig)
      requires Valid()
      modifies this`pending, config, connections, cache`states, cache`active
      ensures Valid() && Ops() == Reconfigured(old(Ops()), value)
      ensures cache.states == map[] && cache.active == map[]
    {
      config.value := value;
      ResetRuntimeAfterConfigChange();
    }

    method CheckPrepare(deviceId: string, action: string, methodName: Option<string>) returns (error: Option<Error>)
      ensures error == PrepareError(Ops(), deviceId, action, methodName)
    {
      var k := FindDevice(config.value.devices, deviceId);
      if k.None? {
        return Some(DEVICE_NOT_FOUND);
      }
      var device := config.value.devices[k.value];
      if !device.enabled {
        return Some(DEVICE_DISABLED);
      }
      if action == CALL {
        if methodName.None? {
          return Some(TOOL_EXECUTION_FAILED);
        }
        var m := FindMethod(device.methods, methodName.value);
        if m.None? {
          return Some(METHOD_NOT_FOUND);
        }
        if !device.methods[m.value].enabled {
          return Some(METHOD_DISABLED);
        }
      }
      return None;
    }

    method CheckCall(deviceId: string, methodName: string, arguments: Arguments) returns (error: Option<Error>)
      ensures error == CallError(Ops(), deviceId, methodName, arguments)
    {
      var k := FindDevice(config.value.devices, deviceId);
      if k.None? {
        return Some(DEVICE_NOT_FOUND);
      }
      var device := config.value.devices[k.value];
      if !device.enabled {
        return Some(DEVICE_DISABLED);
      }
      var m := FindMethod(device.methods, methodName);
      if m.None? {
        return Some(METHOD_NOT_FOUND);
      }
      if !device.methods[m.value].enabled {
        return Some(METHOD_DISABLED);
      }
      var valid := ValidateArguments(device.methods[m.value], arguments);
      return if valid then None else Some(INVALID_ARGUMENT);
    }

    /** Files a new pending operation under a fresh id. */
    method FileOperation(op: Pending, clock: string) returns (id: string)
      requires Valid() && NamesEnabled(config.value.devices, op)
      modifies this`pending, this`counter
      ensures Valid() && id == OperationId(clock, old(counter) + 1)
      ensures Ops() == OpsState(config.value, old(pending)[id := op], old(counter) + 1)
    {
      counter := counter + 1;
      id := OperationId(clock, counter);
      pending := pending[id := op];
    }

    /** Files what a prepare asked for, once it passed its checks. */
    method AcceptPrepare(deviceId: string, action: string, methodName: Option<string>, now: nat, clock: string)
      returns (id: string)
      requires Valid() && PrepareError(Ops(), deviceId, action, methodName) == None
      modifies this`pending, this`counter
      ensures Valid()
      ensures (Ops(), Prepared(id)) == Handle(old(Ops()), Timed(now, clock, Prepare(deviceId, action, methodName)))
    {
      ghost var before := Ops();
      var op := Pending(deviceId, action, Stored(methodName), now + LIFETIME_MS, false);
      PreparedNamesEnabled(before, op, methodName);
      id := FileOperation(op, clock);
      PrepareStep(before, Timed(now, clock, Prepare(deviceId, action, methodName)), op, id, Ops());
    }

    method PrepareDeviceAction(deviceId: string, action: string, methodName: Option<string>, now: nat, clock: string)
      returns (r: Response)
      requires Valid()
      modifies this`pending, this`counter
      ensures Valid()
      ensures (Ops(), r) == Handle(old(Ops()), Timed(now, clock, Prepare(deviceId, action, methodName)))
    {
      var error := CheckPrepare(deviceId, action, methodName);
      if error.Some? {
        PrepareRefused(Ops(), Timed(now, clock, Prepare(deviceId, action, methodName)), error.value);
        return Failed(error.value);
      }
      var id := AcceptPrepare(deviceId, action, methodName, now, clock);
      r := Prepared(id);
    }

    method ConfirmDeviceAction(id: string, now: nat, clock: string) returns (r: Response)
      requires Valid()
      modifies this`pending
      ensures Valid()
      ensures (Ops(), r) == Handle(old(Ops()), Timed(now, clock, Confirm(id)))
    {
      StepKeepsPendingEnabled(Ops(), Timed(now, clock, Confirm(id)));
      if id !in pending {
        return Failed(INVALID_ARGUMENT);
      }
      if now > pending[id].expiresAt {
        pending := pending - {id};
        return Failed(EXECUTION_TIMEOUT);
      }
      pending := pending[id := pending[id].(confirmed := true)];
      r := Confirmed(id);
    }

    method CancelDeviceAction(id: string, now: nat, clock: string) returns (r: Response)
      requires Valid()
      modifies this`pending
      ensures Valid()
      ensures (Ops(), r) == Handle(old(Ops()), Timed(now, clock, Cancel(id)))
    {
      StepKeepsPendingEnabled(Ops(), Timed(now, clock, Cancel(id)));
      r := Cancelled(id, id in pending);
      pending := pending - {id};
    }

    method ValidateArguments(m: MethodConfig, arguments: Arguments) returns (ok: bool)
      ensures ok == ValidArguments(m, arguments)
    {
      if arguments.NotArray? || |arguments.items| != |m.inputTypes| {
        return false;
      }
      for i := 0 to |m.inputTypes|
        invariant forall j :: 0 <= j < i ==> Fits(m.inputTypes[j], arguments.items[j])
      {
        var inputType, value := m.inputTypes[i], arguments.items[i];
        if inputType in {"Boolean", "Bool"} && !value.Boolean? {
          return false;
        }
        if inputType in {"Double", "Float"} && !IsNumber(value) {
          return false;
        }
        if inputType in {"Int32", "UInt32", "Int16", "UInt16"} && !value.Integer? {
          return false;
        }
        if inputType == "String" && !value.Text? {
          return false;
        }
      }
      ok := true;
    }

    /** The check of a confirmed operation; success and expiry consume it. */
    method Authorise(deviceId: string, methodName: string, id: string, now: nat) returns (error: Option<Error>)
      requires Valid()
      modifies this`pending
      ensures Valid()
      ensures error == AuthorisationError(old(Ops()), deviceId, methodName, id, now)
      ensures pending == if error == None || error == Some(EXECUTION_TIMEOUT) then old(pending) - {id} else old(pending)
    {
      if id == "" {
        return Some(METHOD_CONFIRMATION_REQUIRED);
      }
      if id !in pending {
        return Some(INVALID_ARGUMENT);
      }
      var op := pending[id];
      if !op.confirmed {
        return Some(METHOD_CONFIRMATION_REQUIRED);
      }
      if now > op.expiresAt {
        pending := pending - {id};
        return Some(EXECUTION_TIMEOUT);
      }
      if op.deviceId != deviceId || op.action != CALL {
        return Some(INVALID_ARGUMENT);
      }
      if op.methodName != "" && op.methodName != methodName {
        return Some(INVALID_ARGUMENT);
      }
      pending := pending - {id};
      return None;
    }

    /** One connector call for a configured device. */
    method Forward(k: nat, now: nat, reply: Reply) returns (result: Result)
      requires Valid() && k < |config.value.devices| && config.value.devices[k].enabled
      modifies connections`states
      ensures Valid() && Ops() == old(Ops())
      ensures result.CircuitOpen? || result == Answered(reply)
      ensures connections.states ==
              AfterRequest(config.value.reliability, old(connections.states), config.value.devices[k], true, now,
                           [reply])
    {
      var device := config.value.devices[k];
      assert device.id in DeviceIds(config.value.devices);
      RequestKeepsSound(config.value, Gates(), k, now, [reply]);
      result := connections.CallOnce(device, now, reply);
    }

    /** Everything call_device_method checks before it reaches the connection manager. */
    method AdmitCall(deviceId: string, methodName: string, arguments: Arguments, id: string, now: nat, clock: string)
      returns (r: Response)
      requires Valid()
      modifies this`pending
      ensures Valid()
      ensures (Ops(), r) == Handle(old(Ops()), Timed(now, clock, Call(deviceId, methodName, arguments, id)))
      ensures r.Called? ==> DeviceOf(Ops(), deviceId).Some? && DeviceOf(Ops(), deviceId).value.enabled
    {
      var refusal := CheckCall(deviceId, methodName, arguments);
      if refusal.Some? {
        return Failed(refusal.value);
      }
      var device := config.value.devices[FindDevice(config.value.devices, deviceId).value];
      if !device.methods[FindMethod(device.methods, methodName).value].requiresConfirmation {
        return Called(deviceId, methodName, None);
      }
      var error := Authorise(deviceId, methodName, id, now);
      r := if error.Some? then Failed(error.value) else Called(deviceId, methodName, Some(id));
    }

    /** `result` is what the connection manager answered, for calls that reach it. */
    method CallDeviceMethod(deviceId: string, methodName: string, arguments: Arguments, id: string, now: nat,
                            clock: string, reply: Reply)
      returns (r: Response, result: Option<Result>)
      requires Valid()
      modifies this`pending, connections`states
      ensures Valid()
      ensures (Ops(), r) == Handle(old(Ops()), Timed(now, clock, Call(deviceId, methodName, arguments, id)))
      ensures r.Called? <==> result.Some?
      ensures r.Called? ==> result.value.CircuitOpen? || result.value == Answered(reply)
      ensures r.Called? ==> var k := FindDevice(config.value.devices, deviceId);
                k.Some? && connections.states ==
                AfterRequest(config.value.reliability, old(connections.states), config.value.devices[k.value], true,
                             now, [reply])
      ensures !r.Called? ==> connections.states == old(connections.states)
    {
      r := AdmitCall(deviceId, methodName, arguments, id, now, clock);
      if !r.Called? {
        return r, None;
      }
      var answer := Forward(FindDevice(config.value.devices, deviceId).value, now, reply);
      result := Some(answer);
    }

    method AddDevice(device: DeviceConfig, now: nat, clock: string) returns (r: Response)
      requires Valid()
      modifies this`pending, config, connections, cache`states, cache`active
      ensures Valid()
      ensures (Ops(), r) == Handle(old(Ops()), Timed(now, clock, Request.AddDevice(device)))
      ensures r.Changed? ==> cache.states == map[] && cache.active == map[]
    {
      if FindDevice(config.value.devices, device.id).Some? {
        return Failed(DEVICE_ALREADY_EXISTS);
      }
      ChangeConfiguration(config.value.(devices := config.value.devices + [device]));
      r := Changed;
    }

    method RemoveDevice(deviceId: string, force: bool, now: nat, clock: string) returns (r: Response)
      requires Valid()
      modifies this`pending, config, connections, cache`states, cache`active
      ensures Valid()
      ensures (Ops(), r) == Handle(old(Ops()), Timed(now, clock, Request.RemoveDevice(deviceId, force)))
      ensures r.Changed? ==> cache.states == map[] && cache.active == map[]
    {
      var devices := config.value.devices;
      var k := FindDevice(devices, deviceId);
      if k.None? {
        return Failed(DEVICE_NOT_FOUND);
      }
      if devices[k.value].enabled && !force {
        return Failed(DEVICE_IN_USE);
      }
      RemoveStep(Ops(), Timed(now, clock, Request.RemoveDevice(deviceId, force)), k.value);
      ChangeConfiguration(config.value.(devices := devices[..k.value] + devices[k.value + 1..]));
      r := Changed;
    }

    method SetDeviceEnabled(deviceId: string, enabled: bool, now: nat, clock: string) returns (r: Response)
      requires Valid()
      modifies this`pending, config, connections, cache`states, cache`active
      ensures Valid()
      ensures (Ops(), r) == Handle(old(Ops()), Timed(now, clock, SetEnabled(deviceId, enabled)))
      ensures r.Changed? ==> cache.states == map[] && cache.active == map[]
    {
      var devices := config.value.devices;
      var k := FindDevice(devices, deviceId);
      if k.None? {
        return Failed(DEVICE_NOT_FOUND);
      }
      ChangeConfiguration(config.value.(devices := devices[k.value := devices[k.value].(enabled := enabled)]));
      r := Changed;
    }

    /** `loaded` is the result of reading the source file again; the loader accepts any ids, repeated or not. */
    method ReloadConfiguration(loaded: Option<AppConfig>, now: nat, clock: string) returns (r: Response)
      requires Valid()
      modifies this`pending, config, connections, cache`states, cache`active
      ensures Valid()
      ensures (Ops(), r) == Handle(old(Ops()), Timed(now, clock, Reload(loaded)))
      ensures r.Changed? ==> cache.states == map[] && cache.active == map[]
    {
      if config.value.sourcePath == "" {
        return Failed(CONFIG_SOURCE_UNAVAILABLE);
      }
      if loaded.None? {
        return Failed(CONFIG_RELOAD_FAILED);
      }
      ChangeConfiguration(loaded.value);
      r := Changed;
    }

    method ApplyThreshold(arg: ThresholdArg, before: Option<real>) returns (ok: bool, after: Option<real>)
      ensures ok == (arg != Malformed) && after == ApplyArg(arg, before)
    {
      ok, after := true, before;
      if arg.Unset? {
        after := None;
      } else if arg.Malformed? {
        ok := false;
      } else if arg.Given? {
        after := Some(arg.value);
      }
    }

    method ApplyThresholds(args: RuleArgs, rule: Rule) returns (ok: bool, updated: Rule)
      ensures ok == WellTyped(args) && updated == ApplyRule(args, rule)
    {
      var ok0, warnMin := ApplyThreshold(args.warnMin, rule.warnMin);
      var ok1, warnMax := ApplyThreshold(args.warnMax, rule.warnMax);
      var ok2, alarmMin := ApplyThreshold(args.alarmMin, rule.alarmMin);
      var ok3, alarmMax := ApplyThreshold(args.alarmMax, rule.alarmMax);
      ok, updated := ok0 && ok1 && ok2 && ok3, Rule(warnMin, warnMax, alarmMin, alarmMax);
    }

    /** The configuration with one changed rule; nothing else of the runtime is reset but the cache. */
    method ChangeRule(k: nat, v: nat, rule: Rule)
      requires Valid() && k < |config.value.devices| && v < |config.value.devices[k].variables|
      modifies config, cache`states, cache`active
      ensures Valid() && cache.states == map[] && cache.active == map[]
      ensures var devices := old(config.value.devices);
              config.value == old(config.value).(devices := devices[k := WithRule(devices[k], v, rule)])
    {
      var devices := config.value.devices;
      var updated := WithRule(devices[k], v, rule);
      ghost var before := Ops();
      FindDependsOnIds(devices[k := updated], devices, "");
      RuleKeepsRecordsSound(config.value, connections.states, k, updated);
      config.value := config.value.(devices := devices[k := updated]);
      cache.Reset();
      RuleKeepsPending(before, k, v, rule);
    }

    method UpdateAlarmRule(deviceId: string, variable: string, args: RuleArgs, now: nat, clock: string)
      returns (r: Response)
      requires Valid()
      modifies config, cache`states, cache`active
      ensures Valid()
      ensures (Ops(), r) == Handle(old(Ops()), Timed(now, clock, UpdateRule(deviceId, variable, args)))
      ensures r.Changed? ==> cache.states == map[] && cache.active == map[]
      ensures !r.Changed? ==> cache.Contents() == old(cache.Contents())
    {
      var devices := config.value.devices;
      var k := FindDevice(devices, deviceId);
      if k.None? {
        return Failed(DEVICE_NOT_FOUND);
      }
      var device := devices[k.value];
      var v := FindVariable(device.variables, variable);
      if v.None? {
        return Failed(ALARM_RULE_NOT_FOUND);
      }
      var ok, rule := ApplyThresholds(args, device.variables[v.value].rule);
      if !ok {
        return Failed(INVALID_ARGUMENT);
      }
      ChangeRule(k.value, v.value, rule);
      r := Changed;
    }

    /** What refreshes of the configured devices may see. */
    ghost predicate SuitsAll(inputs: seq<Inputs>)
      reads config
    {
      |inputs| == |config.value.devices| &&
      forall i :: 0 <= i < |inputs| ==> Suits(config.value.reliability, config.value.devices[i], inputs[i])
    }

    /** Refreshes one device. */
    method RefreshOne(k: nat, inputs: Inputs)
      requires Valid() && k < |config.value.devices|
      requires Suits(config.value.reliability, config.value.devices[k], inputs)
      modifies cache, connections`states
      ensures Valid() && Ops() == old(Ops())
      ensures Performs(config.value.reliability, old(Gates()), Job(config.value.devices[k], true, inputs), Gates())
    {
      var device := config.value.devices[k];
      ghost var before := Gates();
      assert device.id in DeviceIds(config.value.devices);
      cache.PerformJob(Job(device, true, inputs));
      JobKeepsSound(config.value, before, Job(device, true, inputs), Gates(), k);
    }

    /** Refreshes every device in turn, if the cache is on. */
    method RefreshAll(inputs: seq<Inputs>) returns (ghost stages: seq<Gateway>)
      requires Valid() && SuitsAll(inputs)
      modifies cache, connections`states
      ensures Valid() && Ops() == old(Ops())
      ensures stages != [] && stages[0] == old(Gates()) && stages[|stages| - 1] == Gates()
      ensures var jobs := if config.value.cacheEnabled
                          then Jobs(config.value.devices, DeviceIds(config.value.devices), inputs) else [];
              |stages| == |jobs| + 1 && IsSweep(config.value.reliability, jobs, stages, |jobs|)
    {
      stages := cache.RefreshOnce(inputs);
      if config.value.cacheEnabled {
        ConfiguredSweepKeepsSound(config.value, inputs, stages);
      }
    }

    /** refresh_device_state: one device by its id, or every device for the empty id. */
    method RefreshDeviceState(deviceId: string, inputs: seq<Inputs>) returns (error: Option<Error>)
      requires Valid() && SuitsAll(inputs)
      modifies cache, connections`states
      ensures Valid() && Ops() == old(Ops())
      ensures error == if deviceId != "" && DeviceOf(Ops(), deviceId).None? then Some(DEVICE_NOT_FOUND) else None
      ensures error == None && config.value.cacheEnabled ==>
                forall i :: 0 <= i < |inputs| && deviceId in {"", config.value.devices[i].id} ==>
                  config.value.devices[i].id in cache.states && Coherent(cache.states[config.value.devices[i].id])
      ensures error == None && config.value.cacheEnabled && deviceId != "" ==>
                var k := FindDevice(config.value.devices, deviceId);
                k.Some? && Performs(config.value.reliability, old(Gates()),
                                    Job(config.value.devices[k.value], true, inputs[k.value]), Gates())
      ensures error != None || !config.value.cacheEnabled ==> Gates() == old(Gates())
    {
      if deviceId == "" {
        ghost var stages := RefreshAll(inputs);
        if config.value.cacheEnabled {
          AllCoherent(config.value, stages, inputs);
        }
        return None;
      }
      var k := FindDevice(config.value.devices, deviceId);
      if k.None? {
        return Some(DEVICE_NOT_FOUND);
      }
      if config.value.cacheEnabled {
        ghost var before := Gates();
        RefreshOne(k.value, inputs[k.value]);
        JobBrings(config.value.reliability, before, Job(config.value.devices[k.value], true, inputs[k.value]), Gates());
      }
      return None;
    }

    /** The checks that a request about one device opens with. */
    method CheckDevice(deviceId: string) returns (error: Option<Error>)
      ensures error == DeviceError(Ops(), deviceId)
    {
      var k := FindDevice(config.value.devices, deviceId);
      if k.None? {
        return Some(DEVICE_NOT_FOUND);
      }
      return if config.value.devices[k.value].enabled then None else Some(DEVICE_DISABLED);
    }

    /** The constraints a variable puts on written values. */
    method ValidateWrite(writing: WriteRule, value: Value) returns (ok: bool)
      ensures ok == MayWrite(writing, value)
    {
      if writing.allowed != [] {
        var allowed := false;
        for i := 0 to |writing.allowed|
          invariant allowed == exists j :: 0 <= j < i && SameJson(writing.allowed[j], value)
        {
          allowed := allowed || SameJson(writing.allowed[i], value);
        }
        if !allowed {
          return false;
        }
      }
      if (writing.min.Some? || writing.max.Some?) && !IsNumber(value) {
        return false;
      }
      if IsNumber(value) {
        var parsed := NumericValue(value).value;
        if writing.min.Some? && parsed < writing.min.value {
          return false;
        }
        if writing.max.Some? && parsed > writing.max.value {
          return false;
        }
      }
      ok := true;
    }

    method CheckWrite(deviceId: string, variable: string, value: Option<Value>) returns (error: Option<Error>)
      ensures error == WriteError(Ops(), deviceId, variable, value)
    {
      if config.value.readOnly {
        return Some(WRITE_DISABLED);
      }
      if !config.value.writeEnabled {
        return Some(WRITE_DISABLED);
      }
      if value.None? {
        return Some(INVALID_ARGUMENT);
      }
      error := CheckDevice(deviceId);
      if error.Some? {
        return;
      }
      var device := config.value.devices[FindDevice(config.value.devices, deviceId).value];
      var k := FindVariable(device.variables, variable);
      if k.None? {
        return Some(VARIABLE_NOT_FOUND);
      }
      if !device.variables[k.value].writing.writable {
        return Some(WRITE_NOT_ALLOWED);
      }
      var ok := ValidateWrite(device.variables[k.value].writing, value.value);
      return if ok then None else Some(INVALID_ARGUMENT);
    }

    /** write_node: one connector call; the missing-connector answer cannot occur. */
    method WriteNode(deviceId: string, variable: string, value: Option<Value>, now: nat, reply: Reply)
      returns (error: Option<Error>, result: Option<Result>)
      requires Valid()
      modifies connections`states
      ensures Valid() && Ops() == old(Ops())
      ensures error == WriteError(Ops(), deviceId, variable, value)
      ensures error.Some? ==> result.None? && connections.states == old(connections.states)
      ensures error.None? ==> result.Some? && (result.value.CircuitOpen? || result.value == Answered(reply))
      ensures error.None? ==>
                DeviceOf(Ops(), deviceId).Some? &&
                connections.states == AfterRequest(config.value.reliability, old(connections.states),
                                                   DeviceOf(Ops(), deviceId).value, true, now, [reply])
    {
      error := CheckWrite(deviceId, variable, value);
      if error.Some? {
        return error, None;
      }
      var answer := Forward(FindDevice(config.value.devices, deviceId).value, now, reply);
      result := Some(answer);
    }

    /** read_device_snapshot: one retried read of every variable, past the cache. */
    method ReadDeviceSnapshot(deviceId: string, now: nat, batches: seq<Batch>)
      returns (error: Option<Error>, readings: seq<ReadResult>)
      requires Valid() && |batches| == config.value.reliability.MaxAttempts()
      requires var device := DeviceOf(Ops(), deviceId);
               device.Some? ==> forall i :: 0 <= i < |batches| ==> |batches[i].readings| == |device.value.variables|
      modifies connections`states
      ensures Valid() && Ops() == old(Ops()) && error == DeviceError(Ops(), deviceId)
      ensures error.Some? ==> readings == [] && connections.states == old(connections.states)
      ensures error.None? ==>
                readings == RefusedReads(DeviceOf(Ops(), deviceId).value, CircuitOpen) ||
                readings == batches[Used(JudgeAll(batches)) - 1].readings
      ensures error.None? ==>
                connections.states == AfterRequest(config.value.reliability, old(connections.states),
                                                   DeviceOf(Ops(), deviceId).value, true, now, JudgeAll(batches))
    {
      error := CheckDevice(deviceId);
      if error.Some? {
        return error, [];
      }
      readings := ForwardReads(FindDevice(config.value.devices, deviceId).value, now, batches);
    }

    /** One retried read of a configured device. */
    method ForwardRead(k: nat, now: nat, replies: seq<Reply>) returns (result: Result)
      requires Valid() && k < |config.value.devices| && config.value.devices[k].enabled
      requires |replies| == config.value.reliability.MaxAttempts()
      modifies connections`states
      ensures Valid() && Ops() == old(Ops())
      ensures result.CircuitOpen? || result == Answered(replies[Used(replies) - 1])
      ensures connections.states ==
              AfterRequest(config.value.reliability, old(connections.states), config.value.devices[k], true, now,
                           replies)
    {
      var device := config.value.devices[k];
      assert device.id in DeviceIds(config.value.devices);
      RequestKeepsSound(config.value, Gates(), k, now, replies);
      result := ReadOne(device, now, replies);
    }

    /** A read of a device with a connector: answered, or turned away by the breaker. */
    method ReadOne(device: DeviceConfig, now: nat, replies: seq<Reply>) returns (result: Result)
      requires connections.config == config && connections.Valid()
      requires device.enabled && device.id in connections.connectors
      requires |replies| == config.value.reliability.MaxAttempts()
      modifies connections`states
      ensures result.CircuitOpen? || result == Answered(replies[Used(replies) - 1])
      ensures connections.states ==
              AfterRequest(config.value.reliability, old(connections.states), device, true, now, replies)
    {
      var slept;
      result, slept := connections.ReadNode(device, now, replies);
    }

    /** The same for all variables of the device. */
    method ReadMany(device: DeviceConfig, now: nat, batches: seq<Batch>) returns (readings: seq<ReadResult>)
      requires connections.config == config && connections.Valid()
      requires device.enabled && device.id in connections.connectors
      requires |batches| == config.value.reliability.MaxAttempts()
      requires forall i :: 0 <= i < |batches| ==> |batches[i].readings| == |device.variables|
      modifies connections`states
      ensures readings == RefusedReads(device, CircuitOpen) || readings == batches[Used(JudgeAll(batches)) - 1].readings
      ensures connections.states ==
              AfterRequest(config.value.reliability, old(connections.states), device, true, now, JudgeAll(batches))
    {
      ConnectedReads(config.value.reliability, device, RecordOf(connections.states, device.id), now, batches);
      var slept;
      readings, slept := connections.ReadNodes(device, now, batches);
    }

    /** One retried read of all variables of a configured device. */
    method ForwardReads(k: nat, now: nat, batches: seq<Batch>) returns (readings: seq<ReadResult>)
      requires Valid() && k < |config.value.devices| && config.value.devices[k].enabled
      requires |batches| == config.value.reliability.MaxAttempts()
      requires forall i :: 0 <= i < |batches| ==> |batches[i].readings| == |config.value.devices[k].variables|
      modifies connections`states
      ensures Valid() && Ops() == old(Ops())
      ensures readings == RefusedReads(config.value.devices[k], CircuitOpen) ||
              readings == batches[Used(JudgeAll(batches)) - 1].readings
      ensures connections.states ==
              AfterRequest(config.value.reliability, old(connections.states), config.value.devices[k], true, now,
                           JudgeAll(batches))
    {
      var device := config.value.devices[k];
      assert device.id in DeviceIds(config.value.devices);
      RequestKeepsSound(config.value, Gates(), k, now, JudgeAll(batches));
      readings := ReadMany(device, now, batches);
    }

    /** The checks of read_node. */
    method CheckRead(deviceId: string, variable: string, nodeId: string) returns (target: Target)
      ensures target == ReadCheck(Ops(), deviceId, variable, nodeId)
    {
      var k := FindDevice(config.value.devices, deviceId);
      if k.None? {
        return Refused(DEVICE_NOT_FOUND);
      }
      var device := config.value.devices[k.value];
      if !device.enabled {
        return Refused(DEVICE_DISABLED);
      }
      if variable != "" {
        var v := FindVariable(device.variables, variable);
        if v.None? {
          return Refused(VARIABLE_NOT_FOUND);
        }
        return Node(device.variables[v.value].nodeId, v);
      }
      if nodeId == "" {
        return Refused(INVALID_ARGUMENT);
      }
      if !config.value.allowRawNodeId {
        return Refused(RAW_NODE_ID_DISABLED);
      }
      return Node(nodeId, FindVariable(device.variables, nodeId));
    }

    /** read_node for a configured device; the missing-connector answer cannot occur. */
    method ReadNode(deviceId: string, variable: string, nodeId: string, now: nat, replies: seq<Reply>)
      returns (target: Target, result: Option<Result>)
      requires Valid()
      requires |replies| == config.value.reliability.MaxAttempts()
      modifies connections`states
      ensures Valid() && Ops() == old(Ops())
      ensures target == ReadCheck(Ops(), deviceId, variable, nodeId)
      ensures target.Refused? ==> result.None? && connections.states == old(connections.states)
      ensures target.Node? ==> var k := FindDevice(config.value.devices, deviceId);
                && result.Some? && (result.value.CircuitOpen? || result.value == Answered(replies[Used(replies) - 1]))
                && k.Some? && connections.states ==
                   AfterRequest(config.value.reliability, old(connections.states), config.value.devices[k.value], true,
                                now, replies)
    {
      target := CheckRead(deviceId, variable, nodeId);
      if target.Refused? {
        return target, None;
      }
      var answer := ForwardRead(FindDevice(config.value.devices, deviceId).value, now, replies);
      result := Some(answer);
    }

    /** A health probe of one configured device. */
    method ProbeDevice(k: nat, probe: Probe) returns (health: ManagedState)
      requires Valid() && k < |config.value.devices|
      modifies connections`states
      ensures Valid() && Ops() == old(Ops())
      ensures connections.states ==
              AfterProbe(config.value.reliability, old(connections.states), config.value.devices[k], probe)
      ensures IsHealth(config.value, k, connections.states, health)
      ensures ProbeTells(config.value, k, old(connections.states), probe, health)
    {
      var device := config.value.devices[k];
      assert device.id in DeviceIds(config.value.devices);
      ProbeKeepsSound(config.value, Gates(), k, probe);
      if device.enabled && Sole(config.value.devices, k) {
        ProbeTellsPhase(config.value, k, connections.states, probe);
      }
      health := connections.GetHealth(device, probe.now, probe.reply);
      HealthAfterProbe(config.value, k, connections.states);
    }

    /** get_network_status for the empty id: every configured device is probed in turn. */
    method ProbeAll(probes: seq<Probe>) returns (health: seq<ManagedState>, ghost stages: seq<Table>)
      requires Valid() && |probes| == |config.value.devices|
      modifies connections`states
      ensures Valid() && Ops() == old(Ops())
      ensures |health| == |probes| && |stages| == |probes| + 1
      ensures stages[0] == old(connections.states) && stages[|probes|] == connections.states
      ensures AreProbes(config.value, probes, stages, health)
    {
      health, stages := [], [connections.states];
      for k := 0 to |probes|
        invariant Valid() && Ops() == old(Ops())
        invariant |health| == k && |stages| == k + 1
        invariant stages[0] == old(connections.states) && stages[k] == connections.states
        invariant AreProbes(config.value, probes[..k], stages, health)
      {
        var one := ProbeDevice(k, probes[k]);
        ProbesGrow(config.value, probes, k, stages, health, connections.states, one);
        health, stages := health + [one], stages + [connections.states];
      }
      assert probes[..|probes|] == probes;
    }

    /** get_device_status: a health probe. */
    method GetDeviceStatus(deviceId: string, probe: Probe) returns (error: Option<Error>, health: Option<ManagedState>)
      requires Valid()
      modifies connections`states
      ensures Valid() && Ops() == old(Ops())
      ensures error == if DeviceOf(Ops(), deviceId).None? then Some(DEVICE_NOT_FOUND) else None
      ensures health.Some? <==> error == None
      ensures error == None ==> var k := FindDevice(config.value.devices, deviceId).value;
                && IsHealth(config.value, k, connections.states, health.value)
                && ProbeTells(config.value, k, old(connections.states), probe, health.value)
                && connections.states ==
                   AfterProbe(config.value.reliability, old(connections.states), config.value.devices[k], probe)
      ensures error.Some? ==> connections.states == old(connections.states)
    {
      var k := FindDevice(config.value.devices, deviceId);
      if k.None? {
        return Some(DEVICE_NOT_FOUND), None;
      }
      var status := ProbeDevice(k.value, probe);
      return None, Some(status);
    }

    /** get_network_status: the status of one device, or of every device for the empty id. */
    method GetNetworkStatus(deviceId: string, probes: seq<Probe>)
      returns (error: Option<Error>, health: seq<ManagedState>, ghost stages: seq<Table>)
      requires Valid() && |probes| == |config.value.devices|
      modifies connections`states
      ensures Valid() && Ops() == old(Ops())
      ensures error == if deviceId != "" && DeviceOf(Ops(), deviceId).None? then Some(DEVICE_NOT_FOUND) else None
      ensures error.Some? ==> health == [] && connections.states == old(connections.states)
      ensures deviceId == "" ==>
                && AreProbes(config.value, probes, stages, health)
                && stages[0] == old(connections.states) && stages[|probes|] == connections.states
      ensures error.None? && deviceId != "" ==> var k := FindDevice(config.value.devices, deviceId).value;
                && |health| == 1 && IsHealth(config.value, k, connections.states, health[0])
                && ProbeTells(config.value, k, old(connections.states), probes[k], health[0])
                && connections.states ==
                   AfterProbe(config.value.reliability, old(connections.states), config.value.devices[k], probes[k])
    {
      error, stages := None, [connections.states];
      if deviceId == "" {
        health, stages := ProbeAll(probes);
        return;
      }
      var k := FindDevice(config.value.devices, deviceId);
      if k.None? {
        return Some(DEVICE_NOT_FOUND), [], stages;
      }
      var status := ProbeDevice(k.value, probes[k.value]);
      health := [status];
    }

    method ClearCachedAlarm(deviceId: string, variable: string) returns (error: Option<Error>)
      requires Valid()
      modifies cache`active
      ensures Valid() && Ops() == old(Ops())
      ensures error == if DeviceOf(Ops(), deviceId).None? then Some(DEVICE_NOT_FOUND) else None
      ensures cache.active == if error != None || deviceId == "" then old(cache.active)
                              else old(cache.active) - {KeyOf(deviceId, if variable == "" then COMMUNICATION
                                                              else variable)}
    {
      if FindDevice(config.value.devices, deviceId).None? {
        return Some(DEVICE_NOT_FOUND);
      }
      var _ := cache.ClearCachedAlarm(deviceId, variable);
      return None;
    }
  }
}
