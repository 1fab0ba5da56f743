/** Two-phase authorisation over whole runs of the server. */
module Authorisation {
  import opened Config
  import opened OperationIds
  import opened Operations

  /** The server after the first n requests. */
  function StateAt(s: OpsState, run: seq<Timed>, n: nat): OpsState
    requires n <= |run|
  {
    if n == 0 then s else Handle(StateAt(s, run, n - 1), run[n - 1]).0
  }

  function ResponseAt(s: OpsState, run: seq<Timed>, n: nat): Response
    requires n < |run|
  {
    Handle(StateAt(s, run, n), run[n]).1
  }

  function Responses(s: OpsState, run: seq<Timed>): (responses: seq<Response>)
    ensures |responses| == |run|
  {
    seq(|run|, k requires 0 <= k < |run| => ResponseAt(s, run, k))
  }

  predicate IsReset(t: Timed, response: Response) {
    response.Changed? && !t.request.UpdateRule?
  }

  /** A request and its response end the life of operation `id`: a configuration change, a cancel, an expiry
      or a use. */
  predicate Ends(t: Timed, response: Response, id: string) {
    var r := t.request;
    || IsReset(t, response)
    || r == Cancel(id)
    || (response == Failed(EXECUTION_TIMEOUT) && (r == Confirm(id) || (r.Call? && r.operationId == id)))
    || (response.Called? && response.used == Some(id))
  }

  predicate Undisturbed(run: seq<Timed>, responses: seq<Response>, from: nat, to: nat, id: string)
    requires to <= |run| == |responses|
  {
    forall k :: from < k < to ==> !Ends(run[k], responses[k], id)
  }

  /** The request prepared `id` and the server filed it as `op`. */
  predicate PreparedBy(t: Timed, response: Response, id: string, op: Pending) {
    && t.request.Prepare? && response == Prepared(id)
    && op == Pending(t.request.deviceId, t.request.action, Stored(t.request.methodName), t.at + LIFETIME_MS,
                     op.confirmed)
  }

  predicate ConfirmedBy(t: Timed, response: Response, id: string) {
    t.request == Confirm(id) && response == Confirmed(id)
  }

  /** What one request does to one operation id. */
  datatype Effect = Issue(op: Pending) | Approve | Drop | Keep

  function EffectOn(t: Timed, response: Response, id: string): Effect {
    if t.request.Prepare? && response == Prepared(id) then
      Issue(Pending(t.request.deviceId, t.request.action, Stored(t.request.methodName), t.at + LIFETIME_MS, false))
    else if Ends(t, response, id) then Drop
    else if ConfirmedBy(t, response, id) then Approve
    else Keep
  }

  function Slot(pending: map<string, Pending>, id: string): Option<Pending> {
    if id in pending then Some(pending[id]) else None
  }

  function AfterEffect(slot: Option<Pending>, effect: Effect): Option<Pending> {
    match effect
    case Issue(op) => Some(op)
    case Drop => None
    case Approve => if slot.Some? then Some(slot.value.(confirmed := true)) else None
    case Keep => slot
  }

  function SlotAfter(effects: seq<Effect>, n: nat): Option<Pending>
    requires n <= |effects|
  {
    if n == 0 then None else AfterEffect(SlotAfter(effects, n - 1), effects[n - 1])
  }

  /** An operation is pending from its prepare on, until something drops it. */
  lemma {:induction false} SlotOrigin(effects: seq<Effect>, n: nat) returns (p: nat, c: nat)
    requires n <= |effects| && SlotAfter(effects, n).Some?
    ensures p < n && effects[p].Issue?
    ensures SlotAfter(effects, n).value in {effects[p].op, effects[p].op.(confirmed := true)}
    ensures SlotAfter(effects, n).value != effects[p].op ==> p < c < n && effects[c] == Approve
    ensures forall k :: p < k < n ==> effects[k] != Drop
  {
    if effects[n - 1].Issue? {
      p, c := n - 1, 0;
    } else {
      p, c := SlotOrigin(effects, n - 1);
      if effects[n - 1] == Approve {
        c := n - 1;
      }
    }
  }

  function Effects(run: seq<Timed>, responses: seq<Response>, id: string): seq<Effect>
    requires |run| == |responses|
  {
    seq(|run|, k requires 0 <= k < |run| => EffectOn(run[k], responses[k], id))
  }

  /** Every pending operation goes back to its prepare (and its confirmation), undisturbed since. */
  lemma PendingOrigin(run: seq<Timed>, responses: seq<Response>, n: nat, id: string) returns (p: nat, c: nat)
    requires n <= |run| == |responses| && SlotAfter(Effects(run, responses, id), n).Some?
    ensures var op := SlotAfter(Effects(run, responses, id), n).value;
            && p < n && PreparedBy(run[p], responses[p], id, op)
            && (op.confirmed ==> p < c < n && ConfirmedBy(run[c], responses[c], id))
    ensures Undisturbed(run, responses, p, n, id)
  {
    var effects := Effects(run, responses, id);
    p, c := SlotOrigin(effects, n);
    forall k | p < k < n ensures !Ends(run[k], responses[k], id) {
      assert effects[k] != Drop;
    }
  }

  /** The step's pending table and response agree with the effect on this id. */
  ghost predicate StepsBy(s: OpsState, t: Timed, id: string) {
    Slot(Handle(s, t).0.pending, id) == AfterEffect(Slot(s.pending, id), EffectOn(t, Handle(s, t).1, id))
  }

  lemma OperationToolSteps(s: OpsState, t: Timed, id: string)
    requires t.request.Prepare? || t.request.Confirm? || t.request.Cancel?
    ensures StepsBy(s, t, id)
  {
  }

  lemma CallSteps(s: OpsState, t: Timed, id: string)
    requires t.request.Call?
    ensures StepsBy(s, t, id)
  {
  }

  lemma ManagementToolSteps(s: OpsState, t: Timed, id: string)
    requires t.request.AddDevice? || t.request.RemoveDevice? || t.request.SetEnabled? || t.request.Reload? ||
             t.request.UpdateRule?
    ensures StepsBy(s, t, id)
  {
  }

  /** The server moves its pending table, id by id, by these effects alone. */
  lemma SlotStep(s: OpsState, t: Timed, id: string)
    ensures Slot(Handle(s, t).0.pending, id) == AfterEffect(Slot(s.pending, id), EffectOn(t, Handle(s, t).1, id))
  {
    match t.request
    case Call(_, _, _, _) => CallSteps(s, t, id);
    case Prepare(_, _, _) => OperationToolSteps(s, t, id);
    case Confirm(_) => OperationToolSteps(s, t, id);
    case Cancel(_) => OperationToolSteps(s, t, id);
    case _ => ManagementToolSteps(s, t, id);
  }

  lemma EffectStep(s: OpsState, run: seq<Timed>, k: nat, id: string)
    requires k < |run|
    ensures Slot(StateAt(s, run, k + 1).pending, id) ==
            AfterEffect(Slot(StateAt(s, run, k).pending, id), Effects(run, Responses(s, run), id)[k])
  {
    SlotStep(StateAt(s, run, k), run[k], id);
    assert Effects(run, Responses(s, run), id)[k] == EffectOn(run[k], ResponseAt(s, run, k), id);
  }

  lemma {:induction false} PendingFollowsEffects(s: OpsState, run: seq<Timed>, n: nat, id: string)
    requires s.pending == map[] && n <= |run|
    ensures Slot(StateAt(s, run, n).pending, id) == SlotAfter(Effects(run, Responses(s, run), id), n)
  {
    if n > 0 {
      var m := n - 1;
      var before, after := StateAt(s, run, m), StateAt(s, run, m + 1);
      PendingFollowsEffects(s, run, m, id);
      EffectStep(s, run, m, id);
      FollowOne(Slot(before.pending, id), Slot(after.pending, id), Effects(run, Responses(s, run), id), m);
    }
  }

  lemma FollowOne(before: Option<Pending>, after: Option<Pending>, effects: seq<Effect>, m: nat)
    requires m < |effects| && before == SlotAfter(effects, m) && after == AfterEffect(before, effects[m])
    ensures after == SlotAfter(effects, m + 1)
  {
  }

  /** Request i was authorised by the operation prepared at p and confirmed at c. */
  predicate Authorises(run: seq<Timed>, responses: seq<Response>, p: nat, c: nat, i: nat)
    requires i < |run| == |responses|
  {
    var called := responses[i];
    && p < c < i && called.Called? && called.used.Some?
    && ConfirmedBy(run[c], responses[c], called.used.value)
    && run[p].request.Prepare? && responses[p] == Prepared(called.used.value)
    && run[p].request.deviceId == called.deviceId && run[p].request.action == CALL
    && Stored(run[p].request.methodName) in {called.calledMethod, ""}
    && run[i].at <= run[p].at + LIFETIME_MS
    && Undisturbed(run, responses, p, i, called.used.value)
  }

  /** The operation lets this call through. */
  predicate Permits(op: Pending, t: Timed, called: Response)
    requires called.Called?
  {
    && op.confirmed && t.at <= op.expiresAt && op.deviceId == called.deviceId && op.action == CALL
    && op.methodName in {called.calledMethod, ""}
  }

  lemma PermittedIsAuthorised(run: seq<Timed>, responses: seq<Response>, i: nat) returns (p: nat, c: nat)
    requires i < |run| == |responses| && responses[i].Called? && responses[i].used.Some?
    requires var slot := SlotAfter(Effects(run, responses, responses[i].used.value), i);
             slot.Some? && Permits(slot.value, run[i], responses[i])
    ensures Authorises(run, responses, p, c, i)
  {
    p, c := PendingOrigin(run, responses, i, responses[i].used.value);
  }

  /** What a call that gets through found in the pending table. */
  lemma CallUsesConfirmed(s: OpsState, t: Timed)
    requires Handle(s, t).1.Called? && NeedsConfirmation(s, Handle(s, t).1.deviceId, Handle(s, t).1.calledMethod)
    ensures t.request.Call? && Handle(s, t).1.used == Some(t.request.operationId) && t.request.operationId in s.pending
    ensures Permits(s.pending[t.request.operationId], t, Handle(s, t).1)
  {
  }

  lemma PreparedNamesMethod(s: OpsState, t: Timed)
    requires Handle(s, t).1.Prepared? && t.request.Prepare? && t.request.action == CALL
    ensures t.request.methodName.Some? && DeviceOf(s, t.request.deviceId).Some?
    ensures MethodOf(DeviceOf(s, t.request.deviceId).value, t.request.methodName.value).Some?
  {
  }

  /** Request i reached the connection manager for a method that needs confirmation. */
  predicate GuardedCall(s: OpsState, run: seq<Timed>, i: nat)
    requires i < |run|
  {
    var response := ResponseAt(s, run, i);
    response.Called? && NeedsConfirmation(StateAt(s, run, i), response.deviceId, response.calledMethod)
  }

  /** Every call that reaches the connection manager for a method that needs confirmation was prepared for the
      same device, action and method, then confirmed, is checked at most 60 s after the prepare, and nothing
      ended the operation in between. A prepare for a method whose name is empty stands in for any method. */
  lemma CallsAreAuthorised(s: OpsState, run: seq<Timed>, i: nat) returns (p: nat, c: nat)
    requires s.pending == map[] && i < |run| && GuardedCall(s, run, i)
    ensures Authorises(run, Responses(s, run), p, c, i)
    ensures var t := run[p].request;
            t.methodName.Some? &&
            (t.methodName.value != ResponseAt(s, run, i).calledMethod ==>
               t.methodName.value == "" && DeviceOf(StateAt(s, run, p), t.deviceId).Some? &&
               MethodOf(DeviceOf(StateAt(s, run, p), t.deviceId).value, "").Some?)
  {
    CallUsesConfirmed(StateAt(s, run, i), run[i]);
    PendingFollowsEffects(s, run, i, run[i].request.operationId);
    p, c := PermittedIsAuthorised(run, Responses(s, run), i);
    PreparedNamesMethod(StateAt(s, run, p), run[p]);
  }

  /** One prepare authorises at most one call. */
  lemma AuthorisationIsInjective(run: seq<Timed>, responses: seq<Response>, p: nat, c: nat, d: nat, i: nat, j: nat)
    requires i < |run| == |responses| && j < |run|
    requires Authorises(run, responses, p, c, i) && Authorises(run, responses, p, d, j)
    ensures i == j
  {
  }

  /** Two calls that reach the connection manager go back to two different prepares. */
  lemma CallsHaveTheirOwnPrepare(s: OpsState, run: seq<Timed>, i: nat, j: nat)
    requires s.pending == map[] && i < |run| && j < |run|
    ensures i != j && GuardedCall(s, run, i) && GuardedCall(s, run, j) ==>
              exists p, c, q, d :: p != q && Authorises(run, Responses(s, run), p, c, i) &&
                Authorises(run, Responses(s, run), q, d, j)
  {
    if i != j && GuardedCall(s, run, i) && GuardedCall(s, run, j) {
      var p, c := CallsAreAuthorised(s, run, i);
      var q, d := CallsAreAuthorised(s, run, j);
      if p == q {
        AuthorisationIsInjective(run, Responses(s, run), p, c, d, i, j);
      }
    }
  }

  /** The counter before a request and after it: a prepare takes the next number for its id. */
  predicate CountsOn(t: Timed, before: nat, response: Response, after: nat) {
    && before <= after
    && (response.Prepared? ==> response.operationId == OperationId(t.clock, after) && before < after)
  }

  lemma CounterStep(s: OpsState, t: Timed)
    ensures CountsOn(t, s.counter, Handle(s, t).1, Handle(s, t).0.counter)
  {
  }

  predicate CountsAlong(run: seq<Timed>, counters: seq<nat>, responses: seq<Response>) {
    && |counters| == |run| + 1 && |responses| == |run|
    && forall k {:trigger run[k]} :: 0 <= k < |run| ==> CountsOn(run[k], counters[k], responses[k], counters[k + 1])
  }

  lemma CountsAt(s: OpsState, run: seq<Timed>, k: nat)
    requires k < |run|
    ensures CountsOn(run[k], StateAt(s, run, k).counter, ResponseAt(s, run, k), StateAt(s, run, k + 1).counter)
  {
    CounterStep(StateAt(s, run, k), run[k]);
  }

  function CounterAt(s: OpsState, run: seq<Timed>, n: nat): nat
    requires n <= |run|
  {
    StateAt(s, run, n).counter
  }

  lemma CountersOf(s: OpsState, run: seq<Timed>) returns (counters: seq<nat>)
    ensures CountsAlong(run, counters, Responses(s, run))
  {
    counters := seq(|run| + 1, k requires 0 <= k <= |run| => CounterAt(s, run, k));
    var responses := Responses(s, run);
    forall k | 0 <= k < |run| ensures CountsOn(run[k], counters[k], responses[k], counters[k + 1]) {
      CountsAt(s, run, k);
    }
  }

  lemma {:induction false} CountersGrow(run: seq<Timed>, counters: seq<nat>, responses: seq<Response>, m: nat, n: nat)
    requires CountsAlong(run, counters, responses) && m <= n <= |run|
    ensures counters[m] <= counters[n]
    decreases n
  {
    if m < n {
      CountersGrow(run, counters, responses, m, n - 1);
      assert CountsOn(run[n - 1], counters[n - 1], responses[n - 1], counters[n]);
    }
  }

  lemma CountedIdsDiffer(run: seq<Timed>, counters: seq<nat>, responses: seq<Response>, i: nat, j: nat)
    requires CountsAlong(run, counters, responses) && i < j < |run|
    requires responses[i].Prepared? && responses[j].Prepared?
    ensures responses[i].operationId != responses[j].operationId
  {
    CountersGrow(run, counters, responses, i + 1, j);
    assert CountsOn(run[i], counters[i], responses[i], counters[i + 1]);
    assert CountsOn(run[j], counters[j], responses[j], counters[j + 1]);
    if responses[i].operationId == responses[j].operationId {
      OperationIdInjective(run[i].clock, counters[i + 1], run[j].clock, counters[j + 1]);
    }
  }

  /** No operation id is ever issued twice, whatever the wall clock reads. */
  lemma IdsNeverRepeat(s: OpsState, run: seq<Timed>, i: nat, j: nat)
    requires i < j < |run| && ResponseAt(s, run, i).Prepared? && ResponseAt(s, run, j).Prepared?
    ensures ResponseAt(s, run, i).operationId != ResponseAt(s, run, j).operationId
  {
    var counters := CountersOf(s, run);
    CountedIdsDiffer(run, counters, Responses(s, run), i, j);
  }

  /** Exactly when a confirmed, unexpired operation for the right device lets a call through: it was prepared
      for that method, or for no name at all. */
  lemma OperationFitsMethod(s: OpsState, t: Timed)
    requires t.request.Call? && t.request.operationId != "" && t.request.operationId in s.pending
    requires CallError(s, t.request.deviceId, t.request.calledMethod, t.request.arguments) == None
    requires NeedsConfirmation(s, t.request.deviceId, t.request.calledMethod)
    requires var op := s.pending[t.request.operationId];
             op.confirmed && t.at <= op.expiresAt && op.deviceId == t.request.deviceId && op.action == CALL
    ensures var prepared := s.pending[t.request.operationId].methodName;
            Handle(s, t).1.Called? <==> prepared == "" || prepared == t.request.calledMethod
  {
  }

  /** A device with a method that has no name and one that does, both to be confirmed. */
  function Pump(): DeviceConfig {
    DeviceConfig("pump", "", true, [], [MethodConfig("", true, true, []), MethodConfig("reset", true, true, [])])
  }

  /** The server with that device alone, and this pending table. */
  function PumpState(pending: map<string, Pending>, counter: nat): OpsState {
    OpsState(AppConfig("", true, false, true, false, ReliabilityConfig(0, 0, 0, 0, 0), [Pump()]), pending, counter)
  }

  lemma PumpLookups(s: OpsState)
    requires s.config.devices == [Pump()]
    ensures DeviceOf(s, "pump") == Some(Pump())
    ensures MethodOf(Pump(), "") == Some(Pump().methods[0]) && MethodOf(Pump(), "reset") == Some(Pump().methods[1])
  {
    assert s.config.devices[0].id == "pump";
    assert Pump().methods[0].name == "" && Pump().methods[1].name == "reset" != "";
  }

  lemma NamelessPrepare(id: string)
    requires id == OperationId("", 1)
    ensures var op := Pending("pump", CALL, "", LIFETIME_MS, false);
            Handle(PumpState(map[], 0), Timed(0, "", Prepare("pump", CALL, Some("")))) ==
            (PumpState(map[id := op], 1), Prepared(id))
  {
    PumpLookups(PumpState(map[], 0));
  }

  lemma NamelessCall(id: string)
    requires id != ""
    ensures var s := PumpState(map[id := Pending("pump", CALL, "", LIFETIME_MS, true)], 1);
            && Handle(s, Timed(0, "", Call("pump", "reset", Array([]), id))).1 == Called("pump", "reset", Some(id))
            && NeedsConfirmation(s, "pump", "reset")
  {
    PumpLookups(PumpState(map[id := Pending("pump", CALL, "", LIFETIME_MS, true)], 1));
  }

  /** The empty name is a real hole in the method check: on a device with a method named "", an operation
      prepared for it authorises a different method. */
  lemma EmptyNameAuthorisesOtherMethod()
    ensures exists s: OpsState, run: seq<Timed> ::
              && s.pending == map[] && |run| == 3
              && run[0].request == Prepare("pump", CALL, Some(""))
              && ResponseAt(s, run, 2).Called? && ResponseAt(s, run, 2).calledMethod == "reset"
              && NeedsConfirmation(StateAt(s, run, 2), "pump", "reset")
  {
    var s, id := PumpState(map[], 0), OperationId("", 1);
    var run := [Timed(0, "", Prepare("pump", CALL, Some(""))), Timed(0, "", Confirm(id)),
                Timed(0, "", Call("pump", "reset", Array([]), id))];
    var prepared, confirmed := Pending("pump", CALL, "", LIFETIME_MS, false),
        Pending("pump", CALL, "", LIFETIME_MS, true);
    NamelessPrepare(id);
    assert StateAt(s, run, 0) == s;
    assert StateAt(s, run, 1) == PumpState(map[id := prepared], 1);
    assert StateAt(s, run, 2) == PumpState(map[id := confirmed], 1);
    assert id != "";
    NamelessCall(id);
  }

  /** The operation names an enabled device and, for a method call, an enabled method of it. */
  ghost predicate NamesEnabled(devices: seq<DeviceConfig>, op: Pending) {
    var k := FindDevice(devices, op.deviceId);
    && k.Some? && devices[k.value].enabled
    && (op.action == CALL ==>
          var m := MethodOf(devices[k.value], op.methodName);
          m.Some? && m.value.enabled)
  }

  ghost predicate PendingNamesEnabled(s: OpsState) {
    forall id :: id in s.pending ==> NamesEnabled(s.config.devices, s.pending[id])
  }

  /** Loaded configurations have unique device ids; the loader does not check this itself. */
  ghost predicate LoadsUnique(t: Timed) {
    t.request.Reload? && t.request.loaded.Some? ==> UniqueIds(t.request.loaded.value.devices)
  }

  lemma AddKeepsUnique(devices: seq<DeviceConfig>, device: DeviceConfig)
    requires UniqueIds(devices) && FindDevice(devices, device.id).None?
    ensures UniqueIds(devices + [device])
  {
    assert forall i :: 0 <= i < |devices| ==> devices[i].id in DeviceIds(devices);
  }

  lemma RemoveKeepsUnique(devices: seq<DeviceConfig>, k: nat)
    requires UniqueIds(devices) && k < |devices|
    ensures UniqueIds(devices[..k] + devices[k + 1..])
  {
    var r := devices[..k] + devices[k + 1..];
    forall i, j | 0 <= i < j < |r| ensures r[i].id != r[j].id {
      assert r[i] == devices[if i < k then i else i + 1];
      assert r[j] == devices[if j < k then j else j + 1];
    }
  }

  lemma UpdateKeepsUnique(devices: seq<DeviceConfig>, k: nat, device: DeviceConfig)
    requires UniqueIds(devices) && k < |devices| && device.id == devices[k].id
    ensures UniqueIds(devices[k := device])
  {
  }

  lemma AddingKeepsUnique(s: OpsState, t: Timed)
    requires UniqueIds(s.config.devices) && t.request.AddDevice?
    ensures UniqueIds(Handle(s, t).0.config.devices)
  {
    if FindDevice(s.config.devices, t.request.device.id).None? {
      AddKeepsUnique(s.config.devices, t.request.device);
    }
  }

  lemma RemovingKeepsUnique(s: OpsState, t: Timed)
    requires UniqueIds(s.config.devices) && t.request.RemoveDevice?
    ensures UniqueIds(Handle(s, t).0.config.devices)
  {
    if FindDevice(s.config.devices, t.request.deviceId).Some? {
      RemoveKeepsUnique(s.config.devices, FindDevice(s.config.devices, t.request.deviceId).value);
    }
  }

  lemma SettingKeepsUnique(s: OpsState, t: Timed)
    requires UniqueIds(s.config.devices) && t.request.SetEnabled?
    ensures UniqueIds(Handle(s, t).0.config.devices)
  {
    var k := FindDevice(s.config.devices, t.request.deviceId);
    if k.Some? {
      UpdateKeepsUnique(s.config.devices, k.value, s.config.devices[k.value].(enabled := t.request.enabled));
    }
  }

  lemma RulingKeepsUnique(s: OpsState, t: Timed)
    requires UniqueIds(s.config.devices) && t.request.UpdateRule?
    ensures UniqueIds(Handle(s, t).0.config.devices)
  {
    if Handle(s, t).1.Changed? {
      var k := FindDevice(s.config.devices, t.request.deviceId).value;
      UpdateKeepsUnique(s.config.devices, k, Handle(s, t).0.config.devices[k]);
    }
  }

  /** Ids stay unique exactly when the request does not load a configuration that repeats one; without a source
      file there is nothing to load. */
  lemma StepKeepsUniqueIds(s: OpsState, t: Timed)
    requires UniqueIds(s.config.devices)
    ensures UniqueIds(Handle(s, t).0.config.devices) <==> LoadsUnique(t) || s.config.sourcePath == ""
  {
    match t.request
    case AddDevice(_) => AddingKeepsUnique(s, t);
    case RemoveDevice(_, _) => RemovingKeepsUnique(s, t);
    case SetEnabled(_, _) => SettingKeepsUnique(s, t);
    case UpdateRule(_, _, _) => RulingKeepsUnique(s, t);
    case _ =>
  }

  /** The loader lets such a configuration through: a reload can leave two devices with one id. */
  lemma ReloadCanRepeatIds()
    ensures exists s: OpsState, t: Timed :: UniqueIds(s.config.devices) && !UniqueIds(Handle(s, t).0.config.devices)
  {
    var reliability := ReliabilityConfig(0, 0, 0, 0, 0);
    var pump := DeviceConfig("pump", "", true, [], []);
    var loaded := AppConfig("gateway.json", true, false, true, false, reliability, [pump, pump]);
    var s := OpsState(AppConfig("gateway.json", true, false, true, false, reliability, []), map[], 0);
    var t := Timed(0, "", Reload(Some(loaded)));
    assert Handle(s, t).0.config == loaded;
    assert loaded.devices[0].id == loaded.devices[1].id;
    assert !UniqueIds(Handle(s, t).0.config.devices);
  }

  lemma FindAfterRule(devices: seq<DeviceConfig>, k: nat, v: nat, rule: Rule, id: string)
    requires k < |devices| && v < |devices[k].variables|
    ensures FindDevice(devices[k := WithRule(devices[k], v, rule)], id) == FindDevice(devices, id)
  {
    var changed := devices[k := WithRule(devices[k], v, rule)];
    assert forall i :: 0 <= i < |devices| ==> changed[i].id == devices[i].id;
    FindDependsOnIds(changed, devices, id);
  }

  lemma RuleKeepsEnabled(devices: seq<DeviceConfig>, k: nat, v: nat, rule: Rule, op: Pending)
    requires NamesEnabled(devices, op) && k < |devices| && v < |devices[k].variables|
    ensures NamesEnabled(devices[k := WithRule(devices[k], v, rule)], op)
  {
    FindAfterRule(devices, k, v, rule, op.deviceId);
  }

  lemma RuleKeepsPending(s: OpsState, k: nat, v: nat, rule: Rule)
    requires PendingNamesEnabled(s) && k < |s.config.devices| && v < |s.config.devices[k].variables|
    ensures var devices := s.config.devices;
            PendingNamesEnabled(s.(config := s.config.(devices := devices[k := WithRule(devices[k], v, rule)])))
  {
    forall id | id in s.pending
      ensures NamesEnabled(s.config.devices[k := WithRule(s.config.devices[k], v, rule)], s.pending[id])
    {
      RuleKeepsEnabled(s.config.devices, k, v, rule, s.pending[id]);
    }
  }

  lemma StepKeepsPendingEnabled(s: OpsState, t: Timed)
    requires PendingNamesEnabled(s)
    ensures PendingNamesEnabled(Handle(s, t).0)
  {
    var s', devices := Handle(s, t).0, Handle(s, t).0.config.devices;
    forall id | id in s'.pending ensures NamesEnabled(devices, s'.pending[id]) {
      if Handle(s, t).1 == Prepared(id) {
        IssuedNamesEnabled(s, t, id);
      } else {
        SurvivorNamesEnabled(s, t, id);
      }
    }
  }

  lemma IssuedNamesEnabled(s: OpsState, t: Timed, id: string)
    requires Handle(s, t).1 == Prepared(id)
    ensures id in Handle(s, t).0.pending && NamesEnabled(Handle(s, t).0.config.devices, Handle(s, t).0.pending[id])
  {
  }

  lemma SurvivorNamesEnabled(s: OpsState, t: Timed, id: string)
    requires PendingNamesEnabled(s) && id in Handle(s, t).0.pending && Handle(s, t).1 != Prepared(id)
    ensures NamesEnabled(Handle(s, t).0.config.devices, Handle(s, t).0.pending[id])
  {
    SlotStep(s, t, id);
    StepKeepsEnabled(s, t, s.pending[id]);
  }

  /** A request that is no reset leaves devices and methods as enabled as they were. */
  lemma StepKeepsEnabled(s: OpsState, t: Timed, op: Pending)
    requires NamesEnabled(s.config.devices, op) && !IsReset(t, Handle(s, t).1)
    ensures NamesEnabled(Handle(s, t).0.config.devices, op)
  {
    if t.request.UpdateRule? && Handle(s, t).1.Changed? {
      var devices := s.config.devices;
      var k := FindDevice(devices, t.request.deviceId).value;
      var v := FindVariable(devices[k].variables, t.request.variable).value;
      RuleKeepsEnabled(devices, k, v, ApplyRule(t.request.rule, devices[k].variables[v].rule), op);
    }
  }

  /** Over every run of tools, whatever is loaded, every pending operation names what is currently enabled. */
  lemma {:induction false} RunsStayCoherent(s: OpsState, run: seq<Timed>, n: nat)
    requires s.pending == map[] && n <= |run|
    ensures PendingNamesEnabled(StateAt(s, run, n))
  {
    if n > 0 {
      RunsStayCoherent(s, run, n - 1);
      StepKeepsPendingEnabled(StateAt(s, run, n - 1), run[n - 1]);
    }
  }

  /** The ids are unique after each of the first n requests. */
  ghost predicate UniqueUntil(s: OpsState, run: seq<Timed>, n: nat)
    requires n <= |run|
  {
    forall m :: 0 <= m <= n ==> UniqueIds(StateAt(s, run, m).config.devices)
  }

  /** Request i loads no configuration that repeats an id. */
  ghost predicate LoadsNoRepeat(s: OpsState, run: seq<Timed>, i: nat)
    requires i < |run|
  {
    LoadsUnique(run[i]) || StateAt(s, run, i).config.sourcePath == ""
  }

  lemma UniqueStep(s: OpsState, run: seq<Timed>, n: nat)
    requires n < |run| && UniqueIds(StateAt(s, run, n).config.devices)
    ensures UniqueIds(StateAt(s, run, n + 1).config.devices) <==> LoadsNoRepeat(s, run, n)
  {
    StepKeepsUniqueIds(StateAt(s, run, n), run[n]);
  }

  /** Device ids are unique throughout a run exactly when they are at its start and no reload repeats one. */
  lemma {:induction false} IdsStayUnique(s: OpsState, run: seq<Timed>, n: nat)
    requires n <= |run|
    ensures UniqueUntil(s, run, n) <==>
            UniqueIds(s.config.devices) && forall i :: 0 <= i < n ==> LoadsNoRepeat(s, run, i)
  {
    if n > 0 {
      IdsStayUnique(s, run, n - 1);
      assert UniqueUntil(s, run, n) <==> UniqueUntil(s, run, n - 1) && UniqueIds(StateAt(s, run, n).config.devices);
      if UniqueUntil(s, run, n - 1) {
        UniqueStep(s, run, n - 1);
      }
    } else {
      assert StateAt(s, run, 0) == s;
    }
  }
}
