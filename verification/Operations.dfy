/** Two-phase device operations and runtime configuration tools, as steps on the server's bookkeeping. */
module Operations {
  import opened Config
  import opened OperationIds

  const CALL := "call_device_method"
  const LIFETIME_MS: nat := 60000

  datatype Pending = Pending(deviceId: string, action: string, methodName: string, expiresAt: nat, confirmed: bool)

  datatype OpsState = OpsState(config: AppConfig, pending: map<string, Pending>, counter: nat)

  datatype Arguments = NotArray | Array(items: seq<Value>)

  /** One threshold argument of update_alarm_rule. */
  datatype ThresholdArg = Absent | Unset | Given(value: real) | Malformed

  datatype RuleArgs = RuleArgs(warnMin: ThresholdArg, warnMax: ThresholdArg, alarmMin: ThresholdArg,
                               alarmMax: ThresholdArg)

  datatype Request =
    | Prepare(deviceId: string, action: string, methodName: Option<string>)
    | Confirm(operationId: string)
    | Cancel(operationId: string)
    | Call(deviceId: string, calledMethod: string, arguments: Arguments, operationId: string)
    | AddDevice(device: DeviceConfig)
    | RemoveDevice(deviceId: string, force: bool)
    | SetEnabled(deviceId: string, enabled: bool)
    | Reload(loaded: Option<AppConfig>)
    | UpdateRule(deviceId: string, variable: string, rule: RuleArgs)

  /** A request with the clock readings it sees. */
  datatype Timed = Timed(at: nat, clock: string, request: Request)

  datatype Error =
    | DEVICE_NOT_FOUND | DEVICE_DISABLED | METHOD_NOT_FOUND | METHOD_DISABLED | INVALID_ARGUMENT
    | METHOD_CONFIRMATION_REQUIRED | EXECUTION_TIMEOUT | DEVICE_ALREADY_EXISTS | DEVICE_IN_USE
    | CONFIG_SOURCE_UNAVAILABLE | CONFIG_RELOAD_FAILED | ALARM_RULE_NOT_FOUND | TOOL_EXECUTION_FAILED
    | VARIABLE_NOT_FOUND | RAW_NODE_ID_DISABLED | WRITE_DISABLED | WRITE_NOT_ALLOWED

  /** Called means the request reached the connection manager; `used` is the operation it consumed. */
  datatype Response =
    | Failed(error: Error)
    | Prepared(operationId: string)
    | Confirmed(operationId: string)
    | Cancelled(operationId: string, erased: bool)
    | Called(deviceId: string, calledMethod: string, used: Option<string>)
    | Changed

  /** The configured type check of one method argument. */
  predicate Fits(inputType: string, value: Value) {
    && (inputType in {"Boolean", "Bool"} ==> value.Boolean?)
    && (inputType in {"Double", "Float"} ==> IsNumber(value))
    && (inputType in {"Int32", "UInt32", "Int16", "UInt16"} ==> value.Integer?)
    && (inputType == "String" ==> value.Text?)
  }

  predicate ValidArguments(m: MethodConfig, arguments: Arguments) {
    arguments.Array? && |arguments.items| == |m.inputTypes| &&
    forall i :: 0 <= i < |m.inputTypes| ==> Fits(m.inputTypes[i], arguments.items[i])
  }

  function DeviceOf(s: OpsState, id: string): Option<DeviceConfig> {
    match FindDevice(s.config.devices, id)
    case None => None
    case Some(k) => Some(s.config.devices[k])
  }

  function MethodOf(device: DeviceConfig, name: string): Option<MethodConfig> {
    match FindMethod(device.methods, name)
    case None => None
    case Some(k) => Some(device.methods[k])
  }

  /** The method name as the operation stores it; a missing name is stored as the empty one. */
  function Stored(methodName: Option<string>): string {
    if methodName.Some? then methodName.value else ""
  }

  /** Why prepare_device_action refuses, if it does. */
  function PrepareError(s: OpsState, deviceId: string, action: string, methodName: Option<string>): Option<Error> {
    match DeviceOf(s, deviceId)
    case None => Some(DEVICE_NOT_FOUND)
    case Some(device) =>
      if !device.enabled then Some(DEVICE_DISABLED)
      else if action != CALL then None
      else if methodName.None? then Some(TOOL_EXECUTION_FAILED)
      else match MethodOf(device, methodName.value)
        case None => Some(METHOD_NOT_FOUND)
        case Some(m) => if m.enabled then None else Some(METHOD_DISABLED)
  }

  /** Why call_device_method refuses before it looks at the operation, if it does. */
  function CallError(s: OpsState, deviceId: string, methodName: string, arguments: Arguments): Option<Error> {
    match DeviceOf(s, deviceId)
    case None => Some(DEVICE_NOT_FOUND)
    case Some(device) =>
      if !device.enabled then Some(DEVICE_DISABLED)
      else match MethodOf(device, methodName)
        case None => Some(METHOD_NOT_FOUND)
        case Some(m) =>
          if !m.enabled then Some(METHOD_DISABLED)
          else if !ValidArguments(m, arguments) then Some(INVALID_ARGUMENT)
          else None
  }

  predicate NeedsConfirmation(s: OpsState, deviceId: string, methodName: string) {
    var device := DeviceOf(s, deviceId);
    device.Some? && var m := MethodOf(device.value, methodName); m.Some? && m.value.requiresConfirmation
  }

  /** The authorisation check of a confirmed operation. */
  function AuthorisationError(s: OpsState, deviceId: string, methodName: string, id: string, now: nat): Option<Error> {
    if id == "" then Some(METHOD_CONFIRMATION_REQUIRED)
    else if id !in s.pending then Some(INVALID_ARGUMENT)
    else
      var op := s.pending[id];
      if !op.confirmed then Some(METHOD_CONFIRMATION_REQUIRED)
      else if now > op.expiresAt then Some(EXECUTION_TIMEOUT)
      else if op.deviceId != deviceId || op.action != CALL then Some(INVALID_ARGUMENT)
      else if op.methodName != "" && op.methodName != methodName then Some(INVALID_ARGUMENT)
      else None
  }

  /** What read_node reads: a node, and the configured variable it belongs to, if any. */
  datatype Target = Refused(error: Error) | Node(nodeId: string, variable: Option<nat>)

  /** The node a read names, by variable first; raw node ids only where the configuration allows them. */
  function ReadTarget(config: AppConfig, device: DeviceConfig, variable: string, nodeId: string): (target: Target)
    ensures target.Node? && target.variable.Some? ==> target.variable.value < |device.variables|
    ensures target.Node? && variable != "" ==>
              target.variable.Some? && target.nodeId == device.variables[target.variable.value].nodeId
    ensures target.Node? && target.variable.None? ==>
              config.allowRawNodeId && target.nodeId == nodeId != "" &&
              forall k :: 0 <= k < |device.variables| ==> device.variables[k].nodeId != nodeId
  {
    if variable != "" then
      match FindVariable(device.variables, variable)
      case None => Refused(VARIABLE_NOT_FOUND)
      case Some(k) => Node(device.variables[k].nodeId, Some(k))
    else if nodeId == "" then Refused(INVALID_ARGUMENT)
    else if !config.allowRawNodeId then Refused(RAW_NODE_ID_DISABLED)
    else Node(nodeId, FindVariable(device.variables, nodeId))
  }

  /** Why a request about one configured, enabled device is refused before anything else is looked at, if it is. */
  function DeviceError(s: OpsState, deviceId: string): Option<Error> {
    match DeviceOf(s, deviceId)
    case None => Some(DEVICE_NOT_FOUND)
    case Some(device) => if device.enabled then None else Some(DEVICE_DISABLED)
  }

  /** What read_node reads, or why it refuses. */
  function ReadCheck(s: OpsState, deviceId: string, variable: string, nodeId: string): Target {
    match DeviceError(s, deviceId)
    case Some(error) => Refused(error)
    case None => ReadTarget(s.config, DeviceOf(s, deviceId).value, variable, nodeId)
  }

  /** The value is one of the allowed ones, if any are listed, and a number within the limits, if there are any. */
  predicate MayWrite(writing: WriteRule, value: Value) {
    && (writing.allowed != [] ==> exists i :: 0 <= i < |writing.allowed| && SameJson(writing.allowed[i], value))
    && (writing.min.Some? || writing.max.Some? ==> IsNumber(value))
    && (IsNumber(value) && writing.min.Some? ==> NumericValue(value).value >= writing.min.value)
    && (IsNumber(value) && writing.max.Some? ==> NumericValue(value).value <= writing.max.value)
  }

  /** Why write_node refuses, if it does. */
  function WriteError(s: OpsState, deviceId: string, variable: string, value: Option<Value>): Option<Error> {
    if s.config.readOnly || !s.config.writeEnabled then Some(WRITE_DISABLED)
    else if value.None? then Some(INVALID_ARGUMENT)
    else if DeviceError(s, deviceId).Some? then DeviceError(s, deviceId)
    else
      var variables := DeviceOf(s, deviceId).value.variables;
      match FindVariable(variables, variable)
      case None => Some(VARIABLE_NOT_FOUND)
      case Some(k) =>
        if !variables[k].writing.writable then Some(WRITE_NOT_ALLOWED)
        else if !MayWrite(variables[k].writing, value.value) then Some(INVALID_ARGUMENT)
        else None
  }

  function ApplyArg(arg: ThresholdArg, old_: Option<real>): Option<real> {
    match arg
    case Unset => None
    case Given(value) => Some(value)
    case _ => old_
  }

  function ApplyRule(args: RuleArgs, rule: Rule): Rule {
    Rule(ApplyArg(args.warnMin, rule.warnMin), ApplyArg(args.warnMax, rule.warnMax),
         ApplyArg(args.alarmMin, rule.alarmMin), ApplyArg(args.alarmMax, rule.alarmMax))
  }

  predicate WellTyped(args: RuleArgs) {
    args.warnMin != Malformed && args.warnMax != Malformed && args.alarmMin != Malformed && args.alarmMax != Malformed
  }

  /** A configuration change drops every pending operation. */
  function Reconfigured(s: OpsState, config: AppConfig): OpsState {
    s.(config := config, pending := map[])
  }

  function Handle(s: OpsState, t: Timed): (OpsState, Response) {
    var devices := s.config.devices;
    match t.request
    case Prepare(deviceId, action, methodName) =>
      (match PrepareError(s, deviceId, action, methodName)
       case Some(error) => (s, Failed(error))
       case None =>
         var id := OperationId(t.clock, s.counter + 1);
         var op := Pending(deviceId, action, Stored(methodName), t.at + LIFETIME_MS, false);
         (s.(counter := s.counter + 1, pending := s.pending[id := op]), Prepared(id)))
    case Confirm(id) =>
      if id !in s.pending then (s, Failed(INVALID_ARGUMENT))
      else if t.at > s.pending[id].expiresAt then (s.(pending := s.pending - {id}), Failed(EXECUTION_TIMEOUT))
      else (s.(pending := s.pending[id := s.pending[id].(confirmed := true)]), Confirmed(id))
    case Cancel(id) =>
      (s.(pending := s.pending - {id}), Cancelled(id, id in s.pending))
    case Call(deviceId, methodName, arguments, id) =>
      (match CallError(s, deviceId, methodName, arguments)
       case Some(error) => (s, Failed(error))
       case None =>
         if !NeedsConfirmation(s, deviceId, methodName) then (s, Called(deviceId, methodName, None))
         else match AuthorisationError(s, deviceId, methodName, id, t.at)
           case Some(error) =>
             (if error == EXECUTION_TIMEOUT then s.(pending := s.pending - {id}) else s, Failed(error))
           case None => (s.(pending := s.pending - {id}), Called(deviceId, methodName, Some(id))))
    case AddDevice(device) =>
      if FindDevice(devices, device.id).Some? then (s, Failed(DEVICE_ALREADY_EXISTS))
      else (Reconfigured(s, s.config.(devices := devices + [device])), Changed)
    case RemoveDevice(deviceId, force) =>
      (match FindDevice(devices, deviceId)
       case None => (s, Failed(DEVICE_NOT_FOUND))
       case Some(k) =>
         if devices[k].enabled && !force then (s, Failed(DEVICE_IN_USE))
         else (Reconfigured(s, s.config.(devices := devices[..k] + devices[k + 1..])), Changed))
    case SetEnabled(deviceId, enabled) =>
      (match FindDevice(devices, deviceId)
       case None => (s, Failed(DEVICE_NOT_FOUND))
       case Some(k) => (Reconfigured(s, s.config.(devices := devices[k := devices[k].(enabled := enabled)])), Changed))
    case Reload(loaded) =>
      if s.config.sourcePath == "" then (s, Failed(CONFIG_SOURCE_UNAVAILABLE))
      else if loaded.None? then (s, Failed(CONFIG_RELOAD_FAILED))
      else (Reconfigured(s, loaded.value), Changed)
    case UpdateRule(deviceId, variable, args) =>
      (match FindDevice(devices, deviceId)
       case None => (s, Failed(DEVICE_NOT_FOUND))
       case Some(k) =>
         match FindVariable(devices[k].variables, variable)
         case None => (s, Failed(ALARM_RULE_NOT_FOUND))
         case Some(v) =>
           if !WellTyped(args) then (s, Failed(INVALID_ARGUMENT))
           else
             var rule := ApplyRule(args, devices[k].variables[v].rule);
             (s.(config := s.config.(devices := devices[k := WithRule(devices[k], v, rule)])), Changed))
  }
}
