/** The slice of the gateway configuration that the reliability, cache and operation engine reads. */
module Config {

  newtype int32 = x: int | -0x8000_0000 <= x < 0x8000_0000

  datatype Option<+T> = None | Some(value: T)

  /** A JSON value, as far as the engine inspects one; an array or object is known by its canonical text. */
  datatype Value = Null | Boolean(b: bool) | Integer(i: int) | Real(r: real) | Text(s: string) | Compound(text: string)

  predicate IsNumber(v: Value) {
    v.Integer? || v.Real?
  }

  function NumericValue(v: Value): Option<real> {
    match v
    case Integer(i) => Some(i as real)
    case Real(r) => Some(r)
    case _ => None
  }

  /** JSON equality compares numbers by value, whatever their kind. */
  predicate SameJson(a: Value, b: Value) {
    if IsNumber(a) && IsNumber(b) then NumericValue(a) == NumericValue(b) else a == b
  }

  datatype ReliabilityConfig = ReliabilityConfig(
    maxRetryCount: int32,
    backoffInitialMs: int32,
    backoffMaxMs: int32,
    circuitFailureThreshold: int32,
    circuitCooldownMs: int32)
  {
    function MaxRetries(): nat {
      if maxRetryCount < 0 then 0 else maxRetryCount as nat
    }

    function MaxAttempts(): nat {
      MaxRetries() + 1
    }

    function Threshold(): nat {
      if circuitFailureThreshold < 1 then 1 else circuitFailureThreshold as nat
    }

    function Cooldown(): nat {
      if circuitCooldownMs < 0 then 0 else circuitCooldownMs as nat
    }
  }

  datatype Rule = Rule(warnMin: Option<real>, warnMax: Option<real>, alarmMin: Option<real>, alarmMax: Option<real>)

  /** What may be written to a variable. */
  datatype WriteRule = WriteRule(writable: bool, allowed: seq<Value>, min: Option<real>, max: Option<real>)

  const READ_ONLY := WriteRule(false, [], None, None)

  datatype VariableConfig = VariableConfig(name: string, nodeId: string, rule: Rule, writing: WriteRule)

  datatype MethodConfig = MethodConfig(name: string, enabled: bool, requiresConfirmation: bool, inputTypes: seq<string>)

  predicate DistinctVariables(variables: seq<VariableConfig>) {
    forall i, j :: 0 <= i < j < |variables| ==> variables[i].name != variables[j].name
  }

  predicate DistinctMethods(methods: seq<MethodConfig>) {
    forall i, j :: 0 <= i < j < |methods| ==> methods[i].name != methods[j].name
  }

  // The source keeps these in hash maps keyed by name; the sequence is the map's iteration order.
  type VariableTable = variables: seq<VariableConfig> | DistinctVariables(variables)
  type MethodTable = methods: seq<MethodConfig> | DistinctMethods(methods)

  datatype DeviceConfig = DeviceConfig(id: string, endpoint: string, enabled: bool, variables: VariableTable,
                                       methods: MethodTable)

  datatype AppConfig = AppConfig(
    sourcePath: string,
    cacheEnabled: bool,
    allowRawNodeId: bool,
    readOnly: bool,
    writeEnabled: bool,
    reliability: ReliabilityConfig,
    devices: seq<DeviceConfig>)

  /** The one configuration object that the server owns and the other components refer to. */
  class ConfigCell {
    var value: AppConfig

    constructor (value: AppConfig)
      ensures this.value == value
    {
      this.value := value;
    }
  }

  function DeviceIds(devices: seq<DeviceConfig>): set<string> {
    set i | 0 <= i < |devices| :: devices[i].id
  }

  predicate UniqueIds(devices: seq<DeviceConfig>) {
    forall i, j :: 0 <= i < j < |devices| ==> devices[i].id != devices[j].id
  }

  /** No other device shares the id of device i. */
  predicate Sole(devices: seq<DeviceConfig>, i: nat)
    requires i < |devices|
  {
    forall j :: 0 <= j < |devices| && j != i ==> devices[j].id != devices[i].id
  }

  /** No later device shares the id of device i. */
  predicate LastOfId(devices: seq<DeviceConfig>, i: nat)
    requires i < |devices|
  {
    forall j :: i < j < |devices| ==> devices[j].id != devices[i].id
  }

  /** Position of the first element from `from` on that satisfies p. */
  function FindFrom<T>(s: seq<T>, p: T -> bool, from: nat): (found: Option<nat>)
    requires from <= |s|
    ensures found.Some? ==> from <= found.value < |s| && p(s[found.value])
    ensures found.Some? ==> forall k :: from <= k < found.value ==> !p(s[k])
    ensures found.None? ==> forall k :: from <= k < |s| ==> !p(s[k])
    decreases |s| - from
  {
    if from == |s| then None else if p(s[from]) then Some(from) else FindFrom(s, p, from + 1)
  }

  function FindDevice(devices: seq<DeviceConfig>, id: string): (found: Option<nat>)
    ensures found.Some? ==> found.value < |devices| && devices[found.value].id == id
    ensures found.Some? ==> forall k :: 0 <= k < found.value ==> devices[k].id != id
    ensures found.None? ==> forall k :: 0 <= k < |devices| ==> devices[k].id != id
  {
    FindFrom(devices, (d: DeviceConfig) => d.id == id, 0)
  }

  lemma FindDependsOnIds(a: seq<DeviceConfig>, b: seq<DeviceConfig>, id: string)
    requires |a| == |b| && forall i :: 0 <= i < |a| ==> a[i].id == b[i].id
    ensures FindDevice(a, id) == FindDevice(b, id)
    ensures DeviceIds(a) == DeviceIds(b)
  {
  }

  function FindVariableByName(variables: seq<VariableConfig>, name: string): (found: Option<nat>)
    ensures found.Some? ==> found.value < |variables| && variables[found.value].name == name
    ensures found.None? ==> forall k :: 0 <= k < |variables| ==> variables[k].name != name
  {
    FindFrom(variables, (v: VariableConfig) => v.name == name, 0)
  }

  /** By name first, then by node id. */
  function FindVariable(variables: seq<VariableConfig>, nameOrNode: string): (found: Option<nat>)
    ensures found.Some? ==>
            found.value < |variables| && nameOrNode in {variables[found.value].name, variables[found.value].nodeId}
    ensures found.None? <==> forall k :: 0 <= k < |variables| ==>
            nameOrNode !in {variables[k].name, variables[k].nodeId}
    ensures (exists k :: 0 <= k < |variables| && variables[k].name == nameOrNode) ==>
              found.Some? && variables[found.value].name == nameOrNode
  {
    match FindVariableByName(variables, nameOrNode)
    case Some(k) => Some(k)
    case None => FindFrom(variables, (v: VariableConfig) => v.nodeId == nameOrNode, 0)
  }

  /** The device with another rule for its variable k. */
  function WithRule(device: DeviceConfig, k: nat, rule: Rule): DeviceConfig
    requires k < |device.variables|
  {
    device.(variables := device.variables[k := device.variables[k].(rule := rule)])
  }

  function FindMethod(methods: seq<MethodConfig>, name: string): (found: Option<nat>)
    ensures found.Some? ==> found.value < |methods| && methods[found.value].name == name
    ensures found.None? ==> forall k :: 0 <= k < |methods| ==> methods[k].name != name
  {
    FindFrom(methods, (m: MethodConfig) => m.name == name, 0)
  }
}
