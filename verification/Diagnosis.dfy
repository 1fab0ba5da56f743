/** The threshold part of the fault diagnosis: one pass over the cached variables of a device. */
module Diagnosis {
  import opened AlarmPass
  import opened CacheRuns
  import opened Config
  import opened DeviceState
  import opened StateCache
  import opened Thresholds

  datatype Finding = Finding(name: string, status: Status)

  /** The finding the diagnosis owes a cached variable, if any. */
  function Owed(device: DeviceConfig, name: string, cached: CachedVariable): Option<Finding> {
    var k := FindVariable(device.variables, name);
    if k.None? || !cached.ok || NumericValue(cached.value).None? then None
    else
      var status := DiagnosisStatus(device.variables[k.value].rule, NumericValue(cached.value).value);
      if status == StatusNormal then None else Some(Finding(name, status))
  }

  /** The status of a number beyond some limit. */
  predicate IsWorst(rule: Rule, number: real, status: Status) {
    status == if Above(rule.alarmMax, number) then CriticalHigh
              else if Below(rule.alarmMin, number) then CriticalLow
              else Warning
  }

  /** Exactly when the diagnosis owes a finding: for a variable cached as ok whose number is beyond a limit, naming its
      worst class. */
  lemma OwedExactly(device: DeviceConfig, name: string, cached: CachedVariable, k: nat)
    requires FindVariable(device.variables, name) == Some(k)
    ensures var rule, owed := device.variables[k].rule, Owed(device, name, cached);
            && (owed.Some? <==> cached.ok && exists number :: IsNumberOf(cached.value, number) && !Within(rule, number))
            && (owed.Some? ==>
                  && owed.value.name == name
                  && exists number :: IsNumberOf(cached.value, number) && IsWorst(rule, number, owed.value.status))
  {
    if NumericValue(cached.value).Some? {
      assert IsNumberOf(cached.value, NumericValue(cached.value).value);
    }
  }

  /** In every reachable state the diagnosis owes a finding for exactly those variables cached as ok and numeric
      that have an active alarm, and the two name the same class, unless the key was cleared by hand since the
      latest refresh. */
  lemma FindingsMatchAlarms(devices: seq<DeviceConfig>, ops: seq<Op>, i: nat, k: nat)
    requires IsRun(devices, ops)
    requires i < |After(devices, ops).devices| && k < |After(devices, ops).devices[i].variables|
    requires OwnsKeys(After(devices, ops).devices, i) && CachedValue(After(devices, ops), i, k).Some?
    requires !ClearedSince(ops, i, VariableKey(After(devices, ops), i, k))
    ensures var m := After(devices, ops);
            var device, name := m.devices[i], m.devices[i].variables[k].name;
            var owed := Owed(device, name, m.view.states[device.id].variables[name]);
            && (owed.Some? <==> ActiveSignature(m, i, k).Some?)
            && (owed.Some? ==> owed.value.name == name && SameClass(ActiveSignature(m, i, k), owed.value.status))
  {
    var m := After(devices, ops);
    CacheAndDiagnosisAgree(devices, ops, i, k);
    assert FindVariableByName(m.devices[i].variables, m.devices[i].variables[k].name) == Some(k);
  }

  /** Lists the abnormal variables, each once, in some order; `causes` counts the causes it adds. */
  method VariableContext(state: Snapshot, device: DeviceConfig) returns (context: seq<Finding>, causes: nat)
    ensures Reports(context, state, device, {})
    ensures causes == |context|
  {
    context, causes := [], 0;
    var left := state.variables.Keys;
    while left != {}
      invariant left <= state.variables.Keys && Reports(context, state, device, left)
      invariant causes == |context|
      decreases |left|
    {
      var name :| name in left;
      ghost var before := left;
      left := left - {name};
      var finding := Examine(device, name, state.variables[name]);
      ReportStep(context, state, device, before, name);
      if finding.Some? {
        context, causes := context + [finding.value], causes + 1;
      }
    }
  }

  /** The diagnosis' own threshold chain. */
  method Examine(device: DeviceConfig, name: string, cached: CachedVariable) returns (finding: Option<Finding>)
    ensures finding == Owed(device, name, cached)
  {
    var k := FindVariable(device.variables, name);
    if k.None? || !cached.ok || !IsNumber(cached.value) {
      return None;
    }
    var value, rule := NumericValue(cached.value).value, device.variables[k.value].rule;
    var status := StatusNormal;
    if rule.alarmMax.Some? && value > rule.alarmMax.value {
      status := CriticalHigh;
    } else if rule.alarmMin.Some? && value < rule.alarmMin.value {
      status := CriticalLow;
    } else if (rule.warnMax.Some? && value > rule.warnMax.value) || (rule.warnMin.Some? && value < rule.warnMin.value) {
      status := Warning;
    }
    finding := if status == StatusNormal then None else Some(Finding(name, status));
  }

  /** The findings owed for the variables that are not left, each once. */
  ghost predicate Reports(context: seq<Finding>, state: Snapshot, device: DeviceConfig, left: set<string>) {
    && (forall f :: f in context <==>
          f.name in state.variables && f.name !in left && Owed(device, f.name, state.variables[f.name]) == Some(f))
    && (forall i, j :: 0 <= i < j < |context| ==> context[i].name != context[j].name)
  }

  lemma ReportStep(context: seq<Finding>, state: Snapshot, device: DeviceConfig, left: set<string>, name: string)
    requires name in left && left <= state.variables.Keys && Reports(context, state, device, left)
    ensures var finding := Owed(device, name, state.variables[name]);
            Reports(if finding.Some? then context + [finding.value] else context, state, device, left - {name})
  {
    var finding := Owed(device, name, state.variables[name]);
    if finding.Some? {
      assert finding.value.name == name;
      assert forall i :: 0 <= i < |context| ==> context[i] in context;
    }
  }
}
