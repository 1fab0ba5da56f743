/** Who gets through the server's checks, told from the configuration and the pending table alone. */
module Access {
  import opened Authorisation
  import opened Config
  import opened Operations

  /** The device at this position is the one that requests for the id are about. */
  predicate DeviceAt(s: OpsState, id: string, j: nat) {
    && j < |s.config.devices| && s.config.devices[j].id == id
    && forall i :: 0 <= i < j ==> s.config.devices[i].id != id
  }

  /** No device has the id. */
  predicate NoDevice(s: OpsState, id: string) {
    forall i :: 0 <= i < |s.config.devices| ==> s.config.devices[i].id != id
  }

  predicate MethodAt(device: DeviceConfig, name: string, k: nat) {
    k < |device.methods| && device.methods[k].name == name
  }

  lemma DeviceIsFound(s: OpsState, id: string, j: nat)
    requires DeviceAt(s, id, j)
    ensures FindDevice(s.config.devices, id) == Some(j) && DeviceOf(s, id) == Some(s.config.devices[j])
  {
  }

  lemma MethodIsFound(device: DeviceConfig, name: string, k: nat)
    requires MethodAt(device, name, k)
    ensures FindMethod(device.methods, name) == Some(k) && MethodOf(device, name) == Some(device.methods[k])
  {
  }

  /** What each kind of JSON value is accepted as; a type that is none of these accepts every value. */
  lemma FitsExactly(inputType: string, value: Value)
    ensures var booleans, reals := {"Boolean", "Bool"}, {"Double", "Float"};
            var integers, texts := {"Int32", "UInt32", "Int16", "UInt16"}, {"String"};
            Fits(inputType, value) <==>
              match value
              case Boolean(_) => inputType !in reals + integers + texts
              case Integer(_) => inputType !in booleans + texts
              case Real(_) => inputType !in booleans + integers + texts
              case Text(_) => inputType !in booleans + reals + integers
              case _ => inputType !in booleans + reals + integers + texts
  {
  }

  /** The operation is confirmed, not expired, and for this call: the same device, and the same method or none. */
  predicate Covers(op: Pending, call: Timed)
    requires call.request.Call?
  {
    && op.confirmed && call.at <= op.expiresAt && op.deviceId == call.request.deviceId && op.action == CALL
    && (op.methodName == "" || op.methodName == call.request.calledMethod)
  }

  /** Exactly when a call reaches the connection manager, and with what. */
  lemma CalledExactly(s: OpsState, t: Timed, j: nat, k: nat)
    requires t.request.Call? && DeviceAt(s, t.request.deviceId, j)
    requires MethodAt(s.config.devices[j], t.request.calledMethod, k)
    ensures var device, r := s.config.devices[j], t.request;
            var m, response := device.methods[k], Handle(s, t).1;
            && (response.Called? <==>
                  && device.enabled && m.enabled
                  && r.arguments.Array? && |r.arguments.items| == |m.inputTypes|
                  && (forall i :: 0 <= i < |m.inputTypes| ==> Fits(m.inputTypes[i], r.arguments.items[i]))
                  && (m.requiresConfirmation ==>
                        r.operationId != "" && r.operationId in s.pending && Covers(s.pending[r.operationId], t)))
            && (response.Called? ==>
                  response == Called(r.deviceId, r.calledMethod,
                                     if m.requiresConfirmation then Some(r.operationId) else None))
  {
    DeviceIsFound(s, t.request.deviceId, j);
    MethodIsFound(s.config.devices[j], t.request.calledMethod, k);
  }

  lemma CalledIsConfigured(s: OpsState, t: Timed) returns (j: nat, k: nat)
    requires Handle(s, t).1.Called?
    ensures t.request.Call? && DeviceAt(s, t.request.deviceId, j)
    ensures MethodAt(s.config.devices[j], t.request.calledMethod, k)
    ensures Handle(s, t).1.deviceId == t.request.deviceId && Handle(s, t).1.calledMethod == t.request.calledMethod
  {
    j := FindDevice(s.config.devices, t.request.deviceId).value;
    k := FindMethod(s.config.devices[j].methods, t.request.calledMethod).value;
  }

  lemma NeededIsFlag(s: OpsState, id: string, name: string, j: nat, k: nat)
    requires DeviceAt(s, id, j) && MethodAt(s.config.devices[j], name, k)
    ensures NeedsConfirmation(s, id, name) == s.config.devices[j].methods[k].requiresConfirmation
  {
    DeviceIsFound(s, id, j);
    MethodIsFound(s.config.devices[j], name, k);
  }

  /** The law of two-phase calls, on the configuration: every call that reaches the connection manager names a
      configured, enabled method of an enabled device; if the method is flagged, the call was prepared, confirmed and
      is within a minute, and nothing ended the operation in between; if it is not, no operation is used. */
  lemma FlaggedCallsAreAuthorised(s: OpsState, run: seq<Timed>, i: nat) returns (j: nat, k: nat)
    requires s.pending == map[] && i < |run| && ResponseAt(s, run, i).Called?
    ensures var called, now := ResponseAt(s, run, i), StateAt(s, run, i);
            && DeviceAt(now, called.deviceId, j) && now.config.devices[j].enabled
            && MethodAt(now.config.devices[j], called.calledMethod, k) && now.config.devices[j].methods[k].enabled
            && if now.config.devices[j].methods[k].requiresConfirmation
               then called.used.Some? && exists p, c :: Authorises(run, Responses(s, run), p, c, i)
               else called.used == None
  {
    var now := StateAt(s, run, i);
    j, k := CalledIsConfigured(now, run[i]);
    CalledExactly(now, run[i], j, k);
    if now.config.devices[j].methods[k].requiresConfirmation {
      NeededIsFlag(now, run[i].request.deviceId, run[i].request.calledMethod, j, k);
      var p, c := CallsAreAuthorised(s, run, i);
    }
  }

  /** What a pair of positions that authorises a call means: a prepare of the same device, action and method (or of
      none) at most 60000 ms before, and its confirmation between. */
  lemma AuthorisedWithinAMinute(run: seq<Timed>, responses: seq<Response>, p: nat, c: nat, i: nat)
    requires i < |run| == |responses| && Authorises(run, responses, p, c, i)
    ensures var prepare := run[p].request;
            && p < c < i && prepare.Prepare? && responses[p] == Prepared(responses[i].used.value)
            && prepare.deviceId == responses[i].deviceId && prepare.action == "call_device_method"
            && (prepare.methodName.Some? && prepare.methodName.value != "" ==>
                  prepare.methodName.value == responses[i].calledMethod)
            && run[c].request == Confirm(responses[i].used.value) && run[i].at <= run[p].at + 60000
  {
  }

  /** Exactly when a prepare is accepted, and what it files: an unconfirmed operation that lives for 60000 ms. */
  lemma PreparedExactly(s: OpsState, t: Timed)
    requires t.request.Prepare?
    ensures var r, (after, response) := t.request, Handle(s, t);
            && (response.Prepared? <==>
                  exists j: nat :: DeviceAt(s, r.deviceId, j) && s.config.devices[j].enabled &&
                    (r.action == "call_device_method" ==>
                     r.methodName.Some? && Offers(s.config.devices[j], r.methodName.value)))
            && (response.Prepared? ==>
                  after.pending == s.pending[response.operationId :=
                    Pending(r.deviceId, r.action, if r.methodName.Some? then r.methodName.value else "",
                            t.at + 60000, false)])
            && (!response.Prepared? ==> after == s)
  {
    var j := FindDevice(s.config.devices, t.request.deviceId);
    if j.Some? {
      DeviceIsFound(s, t.request.deviceId, j.value);
      assert DeviceAt(s, t.request.deviceId, j.value);
      if t.request.methodName.Some? {
        OffersIsFound(s.config.devices[j.value], t.request.methodName.value);
      }
    }
  }

  /** The device has an enabled method of this name. */
  predicate Offers(device: DeviceConfig, name: string) {
    exists k :: 0 <= k < |device.methods| && device.methods[k].name == name && device.methods[k].enabled
  }

  lemma OffersIsFound(device: DeviceConfig, name: string)
    ensures Offers(device, name) <==> MethodOf(device, name).Some? && MethodOf(device, name).value.enabled
  {
    if k :| 0 <= k < |device.methods| && device.methods[k].name == name && device.methods[k].enabled {
      MethodIsFound(device, name, k);
    }
  }

  /** Exactly when a confirm is accepted, and all that it changes; a cancel drops its operation and nothing else. */
  lemma ConfirmedExactly(s: OpsState, t: Timed, id: string)
    ensures t.request == Confirm(id) ==>
              && (Handle(s, t).1 == Confirmed(id) <==> id in s.pending && t.at <= s.pending[id].expiresAt)
              && (Handle(s, t).1 == Confirmed(id) ==>
                    Handle(s, t).0 == s.(pending := s.pending[id := s.pending[id].(confirmed := true)]))
              && (Handle(s, t).1 == Failed(EXECUTION_TIMEOUT) <==> id in s.pending && t.at > s.pending[id].expiresAt)
    ensures t.request == Cancel(id) ==>
              && Handle(s, t).1 == Cancelled(id, id in s.pending)
              && Handle(s, t).0 == s.(pending := map other | other in s.pending && other != id :: s.pending[other])
  {
  }

  /** Exactly when a prepare or a call is refused for its device. */
  lemma DeviceRefusalsExactly(s: OpsState, t: Timed)
    requires t.request.Prepare? || t.request.Call?
    ensures var id, response := t.request.deviceId, Handle(s, t).1;
            && (response == Failed(DEVICE_NOT_FOUND) <==> NoDevice(s, id))
            && (response == Failed(DEVICE_DISABLED) <==>
                  exists j: nat :: DeviceAt(s, id, j) && !s.config.devices[j].enabled)
            && (response.Failed? && response.error in {DEVICE_NOT_FOUND, DEVICE_DISABLED} ==> Handle(s, t).0 == s)
  {
    var j := FindDevice(s.config.devices, t.request.deviceId);
    if j.Some? {
      assert DeviceAt(s, t.request.deviceId, j.value);
      DeviceIsFound(s, t.request.deviceId, j.value);
    }
  }

  /** Exactly when a call that its method accepts is refused for want of a confirmation, or because the operation has
      expired. */
  lemma ConfirmationRefusalsExactly(s: OpsState, t: Timed, j: nat, k: nat)
    requires t.request.Call? && DeviceAt(s, t.request.deviceId, j)
    requires MethodAt(s.config.devices[j], t.request.calledMethod, k)
    requires s.config.devices[j].enabled && s.config.devices[j].methods[k].enabled
    requires ValidArguments(s.config.devices[j].methods[k], t.request.arguments)
    ensures var id, response := t.request.operationId, Handle(s, t).1;
            var flagged := s.config.devices[j].methods[k].requiresConfirmation;
            && (response == Failed(METHOD_CONFIRMATION_REQUIRED) <==>
                  flagged && (id == "" || (id in s.pending && !s.pending[id].confirmed)))
            && (response == Failed(EXECUTION_TIMEOUT) <==>
                  flagged && id != "" && id in s.pending && s.pending[id].confirmed && t.at > s.pending[id].expiresAt)
  {
    DeviceIsFound(s, t.request.deviceId, j);
    MethodIsFound(s.config.devices[j], t.request.calledMethod, k);
  }

  /** Exactly when a write reaches the connection manager. */
  lemma WrittenExactly(s: OpsState, id: string, variable: string, value: Option<Value>)
    ensures WriteError(s, id, variable, value) == None <==>
              && !s.config.readOnly && s.config.writeEnabled && value.Some?
              && exists j: nat :: DeviceAt(s, id, j) && s.config.devices[j].enabled &&
                   Takes(s.config.devices[j], variable, value.value)
  {
    var j := FindDevice(s.config.devices, id);
    if j.Some? {
      assert DeviceAt(s, id, j.value);
      DeviceIsFound(s, id, j.value);
    }
  }

  /** The variable of that name or node is writable, the value is one of those listed, if any are, and a number no
      smaller and no larger than the limits, if there are any. */
  predicate Takes(device: DeviceConfig, variable: string, value: Value) {
    var k := FindVariable(device.variables, variable);
    && k.Some? && device.variables[k.value].writing.writable
    && Allows(device.variables[k.value].writing, value)
  }

  predicate Allows(writing: WriteRule, value: Value) {
    && (|writing.allowed| == 0 || exists i :: 0 <= i < |writing.allowed| && SameJson(writing.allowed[i], value))
    && match value
       case Integer(i) => (writing.min.Some? ==> writing.min.value <= i as real) &&
         (writing.max.Some? ==> i as real <= writing.max.value)
       case Real(r) => (writing.min.Some? ==> writing.min.value <= r) && (writing.max.Some? ==> r <= writing.max.value)
       case _ => writing.min.None? && writing.max.None?
  }

  /** Exactly when a read reaches the connection manager, and what it reads: a configured variable by its name, or a raw
      node where the configuration allows it. */
  lemma ReadExactly(s: OpsState, id: string, variable: string, nodeId: string, j: nat)
    requires DeviceAt(s, id, j)
    ensures var device, target := s.config.devices[j], ReadCheck(s, id, variable, nodeId);
            var k := FindVariable(device.variables, variable);
            && (target.Node? <==>
                  device.enabled && if variable != "" then k.Some? else nodeId != "" && s.config.allowRawNodeId)
            && (target.Node? ==> target.nodeId == if variable != "" then device.variables[k.value].nodeId else nodeId)
            && (target == Refused(DEVICE_DISABLED) <==> !device.enabled)
            && (target == Refused(VARIABLE_NOT_FOUND) <==> device.enabled && variable != "" && k.None?)
            && (target == Refused(INVALID_ARGUMENT) <==> device.enabled && variable == "" && nodeId == "")
  {
    DeviceIsFound(s, id, j);
  }
}
