/** Whole runs of the cache: refreshes, manual clears, rule updates and configuration changes, one after another. */
module CacheRuns {
  import opened Config
  import opened AlarmEdges
  import opened ConnectionManager
  import opened DeviceState
  import opened StateCache
  import opened Thresholds

  /** A refresh names its device by position, so that repeated ids are allowed; the tools name it by id. */
  datatype Op =
    | Refresh(k: nat, readings: seq<ReadResult>, health: ManagedState, stamps: seq<Stamp>)
    | ClearAlarm(id: string, variable: string)
    | UpdateRule(id: string, variable: string, rule: Rule)
    | Reconfigure(devices: seq<DeviceConfig>)

  datatype Model = Model(devices: seq<DeviceConfig>, view: View)

  ghost predicate Possible(m: Model, op: Op) {
    match op
    case Refresh(k, readings, _, stamps) =>
      k < |m.devices| && |readings| == |m.devices[k].variables| && |stamps| == |readings| + 1
    case ClearAlarm(id, _) => FindDevice(m.devices, id).Some?
    case UpdateRule(id, variable, _) =>
      FindDevice(m.devices, id).Some? &&
      FindVariable(m.devices[FindDevice(m.devices, id).value].variables, variable).Some?
    case Reconfigure(_) => true
  }

  function AlarmName(variable: string): string {
    if variable == "" then COMMUNICATION else variable
  }

  /** The key a manual clear forgets; an empty device id clears nothing. */
  function ClearedKey(op: Op): Option<string>
    requires op.ClearAlarm?
  {
    if op.id == "" then None else Some(KeyOf(op.id, AlarmName(op.variable)))
  }

  function ResetView(view: View): View {
    View(map[], Tracker(map[], view.tracker.log))
  }

  ghost function Step(m: Model, op: Op): Model
    requires Possible(m, op)
  {
    match op
    case Refresh(k, readings, health, stamps) => m.(view := Refreshed(m.view, m.devices[k], readings, health, stamps))
    case ClearAlarm(_, _) =>
      (match ClearedKey(op)
       case None => m
       case Some(key) =>
         m.(view := m.view.(tracker := Tracker(m.view.tracker.active - {key}, m.view.tracker.log))))
    case UpdateRule(id, variable, rule) =>
      var i := FindDevice(m.devices, id).value;
      var k := FindVariable(m.devices[i].variables, variable).value;
      Model(m.devices[i := WithRule(m.devices[i], k, rule)], ResetView(m.view))
    case Reconfigure(devices) => Model(devices, ResetView(m.view))
  }

  function Start(devices: seq<DeviceConfig>): Model {
    Model(devices, View(map[], Tracker(map[], [])))
  }

  ghost predicate IsRun(devices: seq<DeviceConfig>, ops: seq<Op>)
    decreases |ops|, 0
  {
    ops == [] || (IsRun(devices, Init(ops)) && Possible(After(devices, Init(ops)), Last(ops)))
  }

  ghost function After(devices: seq<DeviceConfig>, ops: seq<Op>): Model
    requires IsRun(devices, ops)
    decreases |ops|, 1
  {
    if ops == [] then Start(devices) else Step(After(devices, Init(ops)), Last(ops))
  }

  lemma RunGrows(devices: seq<DeviceConfig>, ops: seq<Op>, op: Op)
    requires IsRun(devices, ops) && Possible(After(devices, ops), op)
    ensures IsRun(devices, ops + [op])
    ensures After(devices, ops + [op]) == Step(After(devices, ops), op)
  {
    assert Init(ops + [op]) == ops;
  }

  /** What one operation shows about the state named (id, name). */
  ghost function Shows(m: Model, op: Op, id: string, name: string): seq<Observation>
    requires Possible(m, op)
  {
    match op
    case Refresh(k, readings, _, _) => ShownByRefresh(m.devices[k], readings, |readings|, id, name)
    case ClearAlarm(cleared, variable) =>
      if cleared != "" && cleared == id && AlarmName(variable) == name then [Normal] else []
    case _ => [Normal]
  }

  /** The observation stream of (id, name) over a run. */
  ghost function StreamOf(devices: seq<DeviceConfig>, ops: seq<Op>, id: string, name: string): seq<Observation>
    requires IsRun(devices, ops)
  {
    if ops == [] then []
    else StreamOf(devices, Init(ops), id, name) + Shows(After(devices, Init(ops)), Last(ops), id, name)
  }

  const NO_ALARM := Alarm("", Signature(ERROR, COMMUNICATION_ERROR), "", Failure(""), "", None, None)

  ghost function OpEvents(m: Model, op: Op): seq<Event>
    requires Possible(m, op)
  {
    match op
    case Refresh(k, readings, _, stamps) => RefreshEvents(m.devices[k], readings, |readings|, stamps)
    case ClearAlarm(_, _) =>
      (match ClearedKey(op)
       case None => []
       case Some(key) => [Saw(key, Normal, NO_ALARM)])
    case _ => [ClearAll]
  }

  lemma StepTracks(m: Model, op: Op)
    requires Possible(m, op)
    ensures Step(m, op).view.tracker == TrackAll(m.view.tracker, OpEvents(m, op))
  {
    if !op.Refresh? && OpEvents(m, op) != [] {
      TrackOne(m.view.tracker, OpEvents(m, op)[0]);
    }
  }

  /** The operation is not about a device whose id collides with this one. */
  ghost predicate KeepsOff(m: Model, op: Op, id: string)
    requires Possible(m, op)
  {
    && (op.Refresh? ==> !Collide(id, m.devices[op.k].id))
    && (op.ClearAlarm? && op.id != "" ==> !Collide(id, op.id))
  }

  /** No refresh and no clear of the run is about such a device. */
  ghost predicate RunKeepsOff(devices: seq<DeviceConfig>, ops: seq<Op>, id: string)
    requires IsRun(devices, ops)
  {
    ops == [] || (RunKeepsOff(devices, Init(ops), id) && KeepsOff(After(devices, Init(ops)), Last(ops), id))
  }

  lemma StreamOfSingle(key: string, e: Event)
    ensures Stream(key, [e]) == Shown(key, e)
  {
    assert Init([e]) == [];
  }

  lemma EventsShow(m: Model, op: Op, id: string, name: string)
    requires Possible(m, op) && KeepsOff(m, op, id)
    ensures Stream(KeyOf(id, name), OpEvents(m, op)) == Shows(m, op, id, name)
  {
    match op
    case Refresh(k, readings, _, stamps) => StreamOfRefresh(m.devices[k], readings, |readings|, stamps, id, name);
    case ClearAlarm(cleared, variable) =>
      if cleared != "" {
        StreamOfSingle(KeyOf(id, name), OpEvents(m, op)[0]);
        KeysAreDistinct(id, name, cleared, AlarmName(variable));
      }
    case _ => StreamOfSingle(KeyOf(id, name), ClearAll);
  }

  ghost function Events(devices: seq<DeviceConfig>, ops: seq<Op>): seq<Event>
    requires IsRun(devices, ops)
  {
    if ops == [] then [] else Events(devices, Init(ops)) + OpEvents(After(devices, Init(ops)), Last(ops))
  }

  lemma {:induction false} RunTracks(devices: seq<DeviceConfig>, ops: seq<Op>)
    requires IsRun(devices, ops)
    ensures After(devices, ops).view.tracker == TrackAll(Tracker(map[], []), Events(devices, ops))
  {
    if ops != [] {
      var m, op := After(devices, Init(ops)), Last(ops);
      RunTracks(devices, Init(ops));
      StepTracks(m, op);
      TrackConcat(Tracker(map[], []), Events(devices, Init(ops)), OpEvents(m, op));
    }
  }

  lemma {:induction false} EventsStream(devices: seq<DeviceConfig>, ops: seq<Op>, id: string, name: string)
    requires IsRun(devices, ops) && RunKeepsOff(devices, ops, id)
    ensures Stream(KeyOf(id, name), Events(devices, ops)) == StreamOf(devices, ops, id, name)
  {
    if ops != [] {
      var m, op := After(devices, Init(ops)), Last(ops);
      EventsStream(devices, Init(ops), id, name);
      EventsShow(m, op, id, name);
      StreamConcat(KeyOf(id, name), Events(devices, Init(ops)), OpEvents(m, op));
    }
  }

  /** The alarms logged under the key of (id, name) are the edges of its own observation stream, and the active
      signature is the one standing. */
  ghost predicate Refines(devices: seq<DeviceConfig>, ops: seq<Op>, id: string, name: string)
    requires IsRun(devices, ops)
  {
    var tracker, stream := After(devices, ops).view.tracker, StreamOf(devices, ops, id, name);
    && LogOf(KeyOf(id, name), tracker.log) == Edges(stream)
    && ActiveAt(tracker.active, KeyOf(id, name)) == SignatureStanding(stream)
  }

  /** Over any run whose other device ids do not collide with `id`, the log refines the streams of `id`. */
  lemma AlarmLogRefinement(devices: seq<DeviceConfig>, ops: seq<Op>, id: string, name: string)
    requires IsRun(devices, ops) && RunKeepsOff(devices, ops, id)
    ensures Refines(devices, ops, id, name)
  {
    RunTracks(devices, ops);
    EventsStream(devices, ops, id, name);
    LogIsEdges(KeyOf(id, name), Events(devices, ops));
  }

  /** The numeric value cached as ok for variable k of device i, if there is one. */
  ghost function CachedValue(m: Model, i: nat, k: nat): Option<real>
    requires i < |m.devices| && k < |m.devices[i].variables|
  {
    var d, v := m.devices[i], m.devices[i].variables[k];
    if d.id in m.view.states && v.name in m.view.states[d.id].variables && m.view.states[d.id].variables[v.name].ok
    then NumericValue(m.view.states[d.id].variables[v.name].value) else None
  }

  ghost function VariableKey(m: Model, i: nat, k: nat): string
    requires i < |m.devices| && k < |m.devices[i].variables|
  {
    KeyOf(m.devices[i].id, m.devices[i].variables[k].name)
  }

  ghost function ActiveSignature(m: Model, i: nat, k: nat): Option<Signature>
    requires i < |m.devices| && k < |m.devices[i].variables|
  {
    ActiveAt(m.view.tracker.active, VariableKey(m, i, k))
  }

  /** The active signature is the verdict on the cached value, or nothing once it was cleared. */
  ghost predicate Agrees(m: Model, i: nat, k: nat, cleared: bool)
    requires i < |m.devices| && k < |m.devices[i].variables|
  {
    var value := CachedValue(m, i, k);
    var rule := m.devices[i].variables[k].rule;
    value.Some? ==>
      (ActiveSignature(m, i, k) == if cleared then None else SignatureOf(CacheVerdict(rule, value.value)))
  }

  /** The key was cleared by hand after the latest refresh of device i and the latest reset. */
  predicate ClearedSince(ops: seq<Op>, i: nat, key: string) {
    if ops == [] then false
    else match Last(ops)
      case Refresh(k, _, _, _) => k != i && ClearedSince(Init(ops), i, key)
      case ClearAlarm(_, _) => ClearedKey(Last(ops)) == Some(key) || ClearedSince(Init(ops), i, key)
      case _ => false
  }

  /** No other configured device has the id of device i or one that collides with it. */
  predicate OwnsKeys(devices: seq<DeviceConfig>, i: nat)
    requires i < |devices|
  {
    forall j :: 0 <= j < |devices| && j != i ==>
      devices[j].id != devices[i].id && !Collide(devices[i].id, devices[j].id)
  }

  lemma NeverCollidesWithItself(id: string)
    ensures !Collide(id, id)
  {
    assert |id + "|"| > |id|;
  }

  /** What a stream of the form "maybe the device, then the variable" does to an active signature. */
  lemma ActiveAfterLast(before: Option<Signature>, first: seq<Observation>, last: Observation)
    requires |first| <= 1 && last != Skip
    ensures ActiveAfter(before, first + [last]) == SignatureStanding([last])
  {
    assert Last(first + [last]) == last && Last([last]) == last;
  }

  /** A refresh that reads the variable settles its active signature. */
  lemma ActiveAfterRead(m: Model, op: Op, i: nat, k: nat)
    requires op.Refresh? && Possible(m, op) && op.k == i < |m.devices| && k < |m.devices[i].variables|
    requires op.readings[k].ok
    ensures ActiveSignature(Step(m, op), i, k) ==
            SignatureStanding([Observe(m.devices[i].variables[k], op.readings[k], AllFailed(op.readings))])
  {
    var d, v := m.devices[i], m.devices[i].variables[k];
    var observation := Observe(v, op.readings[k], AllFailed(op.readings));
    NeverCollidesWithItself(d.id);
    EventsShow(m, op, d.id, v.name);
    StepTracks(m, op);
    ActiveFollowsStream(m.view.tracker, KeyOf(d.id, v.name), OpEvents(m, op));
    assert FindVariableByName(d.variables, v.name) == Some(k);
    ActiveAfterLast(ActiveSignature(m, i, k), if v.name == COMMUNICATION then [ObserveDevice(op.readings)]
                    else [], observation);
  }

  lemma ActiveAfterOther(m: Model, op: Op, i: nat, k: nat)
    requires op.Refresh? && Possible(m, op) && op.k != i < |m.devices| && k < |m.devices[i].variables|
    requires OwnsKeys(m.devices, i)
    ensures ActiveSignature(Step(m, op), i, k) == ActiveSignature(m, i, k)
    ensures CachedValue(Step(m, op), i, k) == CachedValue(m, i, k)
  {
    var d, v := m.devices[i], m.devices[i].variables[k];
    EventsShow(m, op, d.id, v.name);
    StepTracks(m, op);
    ActiveFollowsStream(m.view.tracker, KeyOf(d.id, v.name), OpEvents(m, op));
  }

  lemma CachedAfterRefresh(m: Model, op: Op, i: nat, k: nat)
    requires op.Refresh? && Possible(m, op) && op.k == i < |m.devices| && k < |m.devices[i].variables|
    ensures CachedValue(Step(m, op), i, k) == if op.readings[k].ok then NumericValue(op.readings[k].value) else None
  {
    CacheHoldsReadings(m.devices[i].variables, op.readings);
  }

  lemma RefreshAgrees(m: Model, op: Op, i: nat, k: nat, cleared: bool)
    requires op.Refresh? && Possible(m, op) && i < |m.devices| && k < |m.devices[i].variables|
    requires OwnsKeys(m.devices, i) && Agrees(m, i, k, cleared)
    ensures Agrees(Step(m, op), i, k, cleared && op.k != i)
  {
    if op.k != i {
      ActiveAfterOther(m, op, i, k);
    } else {
      CachedAfterRefresh(m, op, i, k);
      if op.readings[k].ok {
        ActiveAfterRead(m, op, i, k);
      }
    }
  }

  lemma ClearAgrees(m: Model, op: Op, i: nat, k: nat, cleared: bool)
    requires op.ClearAlarm? && Possible(m, op) && i < |m.devices| && k < |m.devices[i].variables|
    requires Agrees(m, i, k, cleared)
    ensures Agrees(Step(m, op), i, k, cleared || ClearedKey(op) == Some(VariableKey(m, i, k)))
  {
  }

  /** In every state a run can reach, the active signature of a variable whose device shares its keys with no other
      is the verdict of the current rule on the value cached as ok, or nothing exactly when that key was cleared
      by hand since the latest refresh of the device. */
  lemma {:induction false} CacheAgreesWithRules(devices: seq<DeviceConfig>, ops: seq<Op>, i: nat, k: nat)
    requires IsRun(devices, ops)
    requires i < |After(devices, ops).devices| && k < |After(devices, ops).devices[i].variables|
    requires OwnsKeys(After(devices, ops).devices, i)
    ensures Agrees(After(devices, ops), i, k, ClearedSince(ops, i, VariableKey(After(devices, ops), i, k)))
    decreases |ops|
  {
    if ops != [] && (Last(ops).Refresh? || Last(ops).ClearAlarm?) {
      var m, op := After(devices, Init(ops)), Last(ops);
      var cleared := ClearedSince(Init(ops), i, VariableKey(m, i, k));
      CacheAgreesWithRules(devices, Init(ops), i, k);
      if op.Refresh? {
        RefreshAgrees(m, op, i, k, cleared);
      } else {
        ClearAgrees(m, op, i, k, cleared);
      }
    }
  }

  /** In every such state the active alarm of a variable cached as ok and numeric and the diagnosis' status of its
      cached value name the same class under the current thresholds. A manual clear can only leave an abnormal
      value without an active alarm, and only until the device is refreshed. */
  lemma CacheAndDiagnosisAgree(devices: seq<DeviceConfig>, ops: seq<Op>, i: nat, k: nat)
    requires IsRun(devices, ops)
    requires i < |After(devices, ops).devices| && k < |After(devices, ops).devices[i].variables|
    requires OwnsKeys(After(devices, ops).devices, i) && CachedValue(After(devices, ops), i, k).Some?
    ensures var m := After(devices, ops);
            var active := ActiveSignature(m, i, k);
            var status := DiagnosisStatus(m.devices[i].variables[k].rule, CachedValue(m, i, k).value);
            if ClearedSince(ops, i, VariableKey(m, i, k)) then active == None
            else SameClass(active, status) && (active == None <==> status == StatusNormal)
  {
    CacheAgreesWithRules(devices, ops, i, k);
    var m := After(devices, ops);
    ClassifiersAgree(m.devices[i].variables[k].rule, CachedValue(m, i, k).value);
  }
}
