/** What the configuration tools do to their own device, and what callers see of it until it is changed again. */
module Switches {
  import opened Access
  import opened Authorisation
  import opened Config
  import opened Management
  import opened Operations

  /** Exactly when a device is added, and what it then is. */
  lemma AddedExactly(s: OpsState, t: Timed)
    requires t.request.AddDevice?
    ensures var device, (after, response) := t.request.device, Handle(s, t);
            && (response.Changed? <==> NoDevice(s, device.id))
            && (response.Changed? ==> DeviceOf(after, device.id) == Some(device) && after.pending == map[])
            && (!response.Changed? ==> after == s)
  {
    if FindDevice(s.config.devices, t.request.device.id).None? {
      FindAfterAdd(s.config.devices, t.request.device, t.request.device.id);
    }
  }

  /** Exactly when a device is removed, and what remains: every other one, in order. */
  lemma RemovedExactly(s: OpsState, t: Timed, j: nat)
    requires t.request.RemoveDevice? && DeviceAt(s, t.request.deviceId, j)
    ensures var devices, (after, response) := s.config.devices, Handle(s, t);
            && (response.Changed? <==> t.request.force || !devices[j].enabled)
            && (response.Changed? ==>
                  && |after.config.devices| == |devices| - 1 && after.pending == map[]
                  && (forall i :: 0 <= i < j ==> after.config.devices[i] == devices[i])
                  && (forall i :: j < i < |devices| ==> after.config.devices[i - 1] == devices[i]))
            && (!response.Changed? ==> after == s)
  {
    DeviceIsFound(s, t.request.deviceId, j);
  }

  /** Exactly when a device is enabled or disabled, and what it then is: the same but for the flag. */
  lemma SetExactly(s: OpsState, t: Timed)
    requires t.request.SetEnabled?
    ensures var id, (after, response) := t.request.deviceId, Handle(s, t);
            && (response.Changed? <==> !NoDevice(s, id))
            && (response.Changed? ==>
                  && DeviceOf(s, id).Some? && after.pending == map[]
                  && DeviceOf(after, id) == Some(DeviceOf(s, id).value.(enabled := t.request.enabled)))
            && (!response.Changed? ==> after == s)
  {
    var devices, id := s.config.devices, t.request.deviceId;
    var k := FindDevice(devices, id);
    if k.Some? {
      assert devices[k.value].id == id;
      FindAfterUpdate(devices, k.value, devices[k.value].(enabled := t.request.enabled), id);
    }
  }

  /** One argument's effect on one threshold. */
  predicate Sets(arg: ThresholdArg, before: Option<real>, after: Option<real>) {
    && (arg.Absent? ==> after == before) && (arg.Unset? ==> after == None)
    && (arg.Given? ==> after == Some(arg.value)) && arg != Malformed
  }

  /** A changed rule is changed threshold by threshold, on its own variable of its own device, and nowhere else. */
  lemma RuledExactly(s: OpsState, t: Timed, j: nat)
    requires t.request.UpdateRule? && DeviceAt(s, t.request.deviceId, j)
    ensures var device, args, (after, response) := s.config.devices[j], t.request.rule, Handle(s, t);
            var v := FindVariable(device.variables, t.request.variable);
            var malformed := Malformed in [args.warnMin, args.warnMax, args.alarmMin, args.alarmMax];
            && (response.Changed? <==> v.Some? && !malformed)
            && (response.Changed? ==>
                  && after.pending == s.pending && |after.config.devices| == |s.config.devices|
                  && (forall i :: 0 <= i < |s.config.devices| && i != j ==>
                        after.config.devices[i] == s.config.devices[i])
                  && Rules(device, v.value, args, after.config.devices[j]))
            && (!response.Changed? ==> after == s)
  {
    DeviceIsFound(s, t.request.deviceId, j);
  }

  predicate Rules(device: DeviceConfig, v: nat, args: RuleArgs, after: DeviceConfig)
    requires v < |device.variables|
  {
    && after.id == device.id && after.endpoint == device.endpoint && after.enabled == device.enabled
    && after.methods == device.methods && |after.variables| == |device.variables|
    && (forall m :: 0 <= m < |device.variables| && m != v ==> after.variables[m] == device.variables[m])
    && var old_, new_ := device.variables[v], after.variables[v];
    && new_.name == old_.name && new_.nodeId == old_.nodeId && new_.writing == old_.writing
    && Sets(args.warnMin, old_.rule.warnMin, new_.rule.warnMin)
    && Sets(args.warnMax, old_.rule.warnMax, new_.rule.warnMax)
    && Sets(args.alarmMin, old_.rule.alarmMin, new_.rule.alarmMin)
    && Sets(args.alarmMax, old_.rule.alarmMax, new_.rule.alarmMax)
  }

  /** Exactly when a configuration is loaded again, and what it then is. */
  lemma ReloadedExactly(s: OpsState, t: Timed)
    requires t.request.Reload?
    ensures var (after, response) := Handle(s, t);
            && (response.Changed? <==> s.config.sourcePath != "" && t.request.loaded.Some?)
            && (response.Changed? ==> after.config == t.request.loaded.value && after.pending == map[])
            && (!response.Changed? ==> after == s)
  {
  }

  /** Every way to reach the device is closed: it is not prepared for, called, read, written or snapshot, and none of
      these requests changes anything. */
  ghost predicate ShutOut(s: OpsState, id: string) {
    && (forall t: Timed | (t.request.Prepare? || t.request.Call?) && t.request.deviceId == id ::
          Handle(s, t) == (s, Failed(DEVICE_DISABLED)))
    && (forall variable, nodeId :: ReadCheck(s, id, variable, nodeId) == Refused(DEVICE_DISABLED))
    && (forall variable, value: Option<Value> | !s.config.readOnly && s.config.writeEnabled && value.Some? ::
          WriteError(s, id, variable, value) == Some(DEVICE_DISABLED))
    && (forall variable, value :: WriteError(s, id, variable, value).Some?)
    && DeviceError(s, id) == Some(DEVICE_DISABLED)
  }

  /** No such request is refused because the device is disabled. */
  ghost predicate LetIn(s: OpsState, id: string) {
    && (forall t: Timed | (t.request.Prepare? || t.request.Call?) && t.request.deviceId == id ::
          Handle(s, t).1 != Failed(DEVICE_DISABLED))
    && (forall variable, nodeId :: ReadCheck(s, id, variable, nodeId) != Refused(DEVICE_DISABLED))
    && (forall variable, value :: WriteError(s, id, variable, value) != Some(DEVICE_DISABLED))
    && DeviceError(s, id) == None
  }

  /** The flag alone decides. */
  lemma FlagDecides(s: OpsState, id: string)
    requires DeviceOf(s, id).Some?
    ensures if DeviceOf(s, id).value.enabled then LetIn(s, id) else ShutOut(s, id)
  {
    if DeviceOf(s, id).value.enabled {
      EnabledIsLetIn(s, id);
    } else {
      DisabledIsShutOut(s, id);
    }
  }

  lemma DisabledIsShutOut(s: OpsState, id: string)
    requires DeviceOf(s, id).Some? && !DeviceOf(s, id).value.enabled
    ensures ShutOut(s, id)
  {
    forall t: Timed | (t.request.Prepare? || t.request.Call?) && t.request.deviceId == id
      ensures Handle(s, t) == (s, Failed(DEVICE_DISABLED))
    {
      DisabledRefuses(s, t);
    }
  }

  lemma DisabledRefuses(s: OpsState, t: Timed)
    requires (t.request.Prepare? || t.request.Call?) && DeviceOf(s, t.request.deviceId).Some?
    requires !DeviceOf(s, t.request.deviceId).value.enabled
    ensures Handle(s, t) == (s, Failed(DEVICE_DISABLED))
  {
  }

  lemma EnabledIsLetIn(s: OpsState, id: string)
    requires DeviceOf(s, id).Some? && DeviceOf(s, id).value.enabled
    ensures LetIn(s, id)
  {
    forall t: Timed | (t.request.Prepare? || t.request.Call?) && t.request.deviceId == id
      ensures Handle(s, t).1 != Failed(DEVICE_DISABLED)
    {
      EnabledAdmits(s, t);
    }
    forall variable, nodeId ensures ReadCheck(s, id, variable, nodeId) != Refused(DEVICE_DISABLED) {
    }
  }

  lemma EnabledAdmits(s: OpsState, t: Timed)
    requires (t.request.Prepare? || t.request.Call?) && DeviceOf(s, t.request.deviceId).Some?
    requires DeviceOf(s, t.request.deviceId).value.enabled
    ensures Handle(s, t).1 != Failed(DEVICE_DISABLED)
  {
  }

  /** The request can change whether this device is enabled. */
  predicate Switches(t: Timed, response: Response, id: string) {
    && response.Changed?
    && match t.request
       case Reload(_) => true
       case SetEnabled(other, _) => other == id
       case RemoveDevice(other, _) => other == id
       case _ => false
  }

  predicate Flagged(s: OpsState, id: string, enabled: bool) {
    DeviceOf(s, id).Some? && DeviceOf(s, id).value.enabled == enabled
  }

  lemma StepKeepsFlag(s: OpsState, t: Timed, id: string, enabled: bool)
    requires Flagged(s, id, enabled) && !Switches(t, Handle(s, t).1, id)
    ensures Flagged(Handle(s, t).0, id, enabled)
  {
    if Management.Target(t.request).Some? && Management.Target(t.request).value != id {
      OthersUntouched(s, t, id);
    } else if t.request.UpdateRule? {
      RuleKeepsFlag(s, t);
    }
  }

  lemma RuleKeepsFlag(s: OpsState, t: Timed)
    requires t.request.UpdateRule? && DeviceOf(s, t.request.deviceId).Some?
    ensures DeviceOf(Handle(s, t).0, t.request.deviceId).Some?
    ensures DeviceOf(Handle(s, t).0, t.request.deviceId).value.enabled == DeviceOf(s, t.request.deviceId).value.enabled
  {
    var j := FindDevice(s.config.devices, t.request.deviceId).value;
    if Handle(s, t).1.Changed? {
      RuledExactly(s, t, j);
      var after := Handle(s, t).0;
      DeviceIsFound(after, t.request.deviceId, j);
    }
  }

  lemma {:induction false} FlagStands(s: OpsState, run: seq<Timed>, i: nat, n: nat, id: string, enabled: bool)
    requires i <= n <= |run| && Flagged(StateAt(s, run, i), id, enabled)
    requires forall k :: i <= k < n ==> !Switches(run[k], ResponseAt(s, run, k), id)
    ensures Flagged(StateAt(s, run, n), id, enabled)
    decreases n
  {
    if i < n {
      FlagStands(s, run, i, n - 1, id, enabled);
      StepKeepsFlag(StateAt(s, run, n - 1), run[n - 1], id, enabled);
    }
  }

  /** From a disabling on the device is shut out, and from an enabling on it is let in, until a later request switches
      it, removes it or loads another configuration. */
  lemma SwitchedUntilSwitched(s: OpsState, run: seq<Timed>, i: nat, n: nat, id: string, enabled: bool)
    requires i < n <= |run| && run[i].request == SetEnabled(id, enabled) && ResponseAt(s, run, i).Changed?
    requires forall k :: i < k < n ==> !Switches(run[k], ResponseAt(s, run, k), id)
    ensures if enabled then LetIn(StateAt(s, run, n), id) else ShutOut(StateAt(s, run, n), id)
  {
    SetExactly(StateAt(s, run, i), run[i]);
    FlagStands(s, run, i + 1, n, id, enabled);
    FlagDecides(StateAt(s, run, n), id);
  }
}
