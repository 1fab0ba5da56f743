/** What the configuration tools change, what they leave alone, and how they undo each other. */
module Management {
  import opened Authorisation
  import opened Config
  import opened Operations

  /** The device a configuration tool is about. */
  function Target(request: Request): Option<string> {
    match request
    case AddDevice(device) => Some(device.id)
    case RemoveDevice(id, _) => Some(id)
    case SetEnabled(id, _) => Some(id)
    case UpdateRule(id, _, _) => Some(id)
    case _ => None
  }

  /** A position is the one found when it holds the id and no earlier position does. */
  lemma FoundAt(devices: seq<DeviceConfig>, id: string, k: nat)
    requires k < |devices| && devices[k].id == id && forall i :: 0 <= i < k ==> devices[i].id != id
    ensures FindDevice(devices, id) == Some(k)
  {
  }

  lemma FindAfterAdd(devices: seq<DeviceConfig>, device: DeviceConfig, id: string)
    requires FindDevice(devices, device.id).None?
    ensures FindDevice(devices + [device], id) == if id == device.id then Some(|devices|) else FindDevice(devices, id)
  {
    if id == device.id {
      FoundAt(devices + [device], id, |devices|);
    } else if FindDevice(devices, id).Some? {
      FoundAt(devices + [device], id, FindDevice(devices, id).value);
    }
  }

  lemma FindAfterRemove(devices: seq<DeviceConfig>, k: nat, id: string)
    requires k < |devices| && id != devices[k].id
    ensures var found, rest := FindDevice(devices, id), devices[..k] + devices[k + 1..];
            FindDevice(rest, id) ==
            if found.Some? && found.value > k then Some(found.value - 1) else found
  {
    var found, rest := FindDevice(devices, id), devices[..k] + devices[k + 1..];
    assert forall i :: 0 <= i < |rest| ==> rest[i] == devices[if i < k then i else i + 1];
    if found.Some? {
      FoundAt(rest, id, if found.value > k then found.value - 1 else found.value);
    }
  }

  lemma LookupAfterRemove(devices: seq<DeviceConfig>, k: nat, id: string)
    requires k < |devices| && id != devices[k].id
    ensures var found, rest := FindDevice(devices, id), devices[..k] + devices[k + 1..];
            && (FindDevice(rest, id).None? <==> found.None?)
            && (found.Some? ==> rest[FindDevice(rest, id).value] == devices[found.value])
  {
    FindAfterRemove(devices, k, id);
  }

  lemma FindAfterUpdate(devices: seq<DeviceConfig>, k: nat, device: DeviceConfig, id: string)
    requires k < |devices| && device.id == devices[k].id
    ensures FindDevice(devices[k := device], id) == FindDevice(devices, id)
  {
    FindDependsOnIds(devices[k := device], devices, id);
  }

  lemma OthersAfterAdd(s: OpsState, t: Timed, other: string)
    requires t.request.AddDevice? && t.request.device.id != other
    ensures DeviceOf(Handle(s, t).0, other) == DeviceOf(s, other)
  {
    if FindDevice(s.config.devices, t.request.device.id).None? {
      FindAfterAdd(s.config.devices, t.request.device, other);
    }
  }

  lemma OthersAfterRemove(s: OpsState, t: Timed, other: string)
    requires t.request.RemoveDevice? && t.request.deviceId != other
    ensures DeviceOf(Handle(s, t).0, other) == DeviceOf(s, other)
  {
    var k := FindDevice(s.config.devices, t.request.deviceId);
    if k.Some? {
      LookupAfterRemove(s.config.devices, k.value, other);
    }
  }

  lemma OthersAfterUpdate(devices: seq<DeviceConfig>, k: nat, device: DeviceConfig, other: string)
    requires k < |devices| && device.id == devices[k].id && other != device.id
    ensures var found := FindDevice(devices, other);
            && FindDevice(devices[k := device], other) == found
            && (found.Some? ==> devices[k := device][found.value] == devices[found.value])
  {
    FindAfterUpdate(devices, k, device, other);
  }

  lemma OthersAfterSet(s: OpsState, t: Timed, other: string)
    requires t.request.SetEnabled? && t.request.deviceId != other
    ensures DeviceOf(Handle(s, t).0, other) == DeviceOf(s, other)
  {
    var devices := s.config.devices;
    var k := FindDevice(devices, t.request.deviceId);
    if k.Some? {
      OthersAfterUpdate(devices, k.value, devices[k.value].(enabled := t.request.enabled), other);
    }
  }

  lemma OthersAfterRule(s: OpsState, t: Timed, other: string)
    requires t.request.UpdateRule? && t.request.deviceId != other
    ensures DeviceOf(Handle(s, t).0, other) == DeviceOf(s, other)
  {
    var devices := s.config.devices;
    if Handle(s, t).1.Changed? {
      var k := FindDevice(devices, t.request.deviceId).value;
      var v := FindVariable(devices[k].variables, t.request.variable).value;
      OthersAfterUpdate(devices, k, WithRule(devices[k], v, ApplyRule(t.request.rule, devices[k].variables[v].rule)),
                        other);
    }
  }

  /** A configuration tool leaves every device but its own exactly as it was. */
  lemma OthersUntouched(s: OpsState, t: Timed, other: string)
    requires Target(t.request).Some? && Target(t.request).value != other
    ensures DeviceOf(Handle(s, t).0, other) == DeviceOf(s, other)
  {
    match t.request
    case AddDevice(_) => OthersAfterAdd(s, t, other);
    case RemoveDevice(_, _) => OthersAfterRemove(s, t, other);
    case SetEnabled(_, _) => OthersAfterSet(s, t, other);
    case UpdateRule(_, _, _) => OthersAfterRule(s, t, other);
  }

  /** Adding a device and removing it again restores the configuration. */
  lemma AddThenRemove(s: OpsState, t: Timed, u: Timed)
    requires t.request.AddDevice? && Handle(s, t).1.Changed?
    requires u.request == RemoveDevice(t.request.device.id, true)
    ensures Handle(Handle(s, t).0, u).1.Changed? && Handle(Handle(s, t).0, u).0.config == s.config
  {
    var devices, device := s.config.devices, t.request.device;
    FindAfterAdd(devices, device, device.id);
    assert (devices + [device])[..|devices|] + (devices + [device])[|devices| + 1..] == devices;
  }

  /** The arguments that set a rule to the given one. */
  function ArgsOf(rule: Rule): RuleArgs {
    RuleArgs(ArgOf(rule.warnMin), ArgOf(rule.warnMax), ArgOf(rule.alarmMin), ArgOf(rule.alarmMax))
  }

  function ArgOf(threshold: Option<real>): ThresholdArg {
    if threshold.Some? then Given(threshold.value) else Unset
  }

  /** Named thresholds are set one by one; absent ones stay. */
  lemma ArgsSetTheRule(wanted: Rule, before: Rule)
    ensures WellTyped(ArgsOf(wanted)) && ApplyRule(ArgsOf(wanted), before) == wanted
    ensures ApplyRule(RuleArgs(Absent, Absent, Absent, Absent), before) == before
  {
  }

  /** A rule update is undone by one that names the old thresholds. */
  lemma RuleUpdateIsUndone(s: OpsState, t: Timed, u: Timed)
    requires t.request.UpdateRule? && Handle(s, t).1.Changed?
    requires DeviceOf(s, t.request.deviceId).Some?
    requires FindVariable(DeviceOf(s, t.request.deviceId).value.variables, t.request.variable).Some?
    requires var variables := DeviceOf(s, t.request.deviceId).value.variables;
             u.request == UpdateRule(t.request.deviceId, t.request.variable,
                                     ArgsOf(variables[FindVariable(variables, t.request.variable).value].rule))
    ensures Handle(Handle(s, t).0, u).1.Changed? && Handle(Handle(s, t).0, u).0 == s
  {
    var devices := s.config.devices;
    var k := FindDevice(devices, t.request.deviceId).value;
    var v := FindVariable(devices[k].variables, t.request.variable).value;
    var old_ := devices[k].variables[v].rule;
    var changed := WithRule(devices[k], v, ApplyRule(t.request.rule, old_));
    FindAfterUpdate(devices, k, changed, t.request.deviceId);
    FindVariableIgnoresRule(devices[k], v, ApplyRule(t.request.rule, old_), t.request.variable);
    ArgsSetTheRule(old_, ApplyRule(t.request.rule, old_));
    assert changed.variables[v := changed.variables[v].(rule := old_)] == devices[k].variables;
    assert WithRule(changed, v, old_) == devices[k];
    assert devices[k := changed][k := devices[k]] == devices;
  }

  lemma FindVariableIgnoresRule(device: DeviceConfig, v: nat, rule: Rule, name: string)
    requires v < |device.variables|
    ensures FindVariable(WithRule(device, v, rule).variables, name) == FindVariable(device.variables, name)
  {
    var changed := WithRule(device, v, rule).variables;
    assert forall i :: 0 <= i < |changed| ==>
           changed[i].name == device.variables[i].name && changed[i].nodeId == device.variables[i].nodeId;
  }
}
